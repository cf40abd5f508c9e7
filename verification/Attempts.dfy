/**
 * One run of a build or push task, as a sequence of writes to the image's status.
 *
 * What the network, the archives and the container engine do is an input: the
 * `Environment` of an attempt.  The imperative tasks in `Tasks` produce exactly
 * these writes, and the scheduler model performs them one atomic step at a time.
 */
module Attempts {
  import opened Statuses

  /** How `process_source` ends: no archive, an archive, status ERROR, or an escaping exception. */
  datatype SourceResult = NoArchive | Archived(tar: Tar) | SourceFailed | SourceRaised

  /** What the archive loop finds when it opens an archive. */
  datatype Tar = Accepted | Rejected | TarRaised

  datatype Mkdir = Made | AlreadyThere | Refused

  datatype Archiving = Archiving(items: seq<SourceResult>, mkdir: Mkdir, packRaises: bool)

  datatype Squash = NotAsked | Squashed | LayerMissing | SquashRaised

  datatype EngineRun = StreamError | EngineRaised | Completed(squash: Squash)

  datatype Environment = Environment(
    source: Option<SourceResult>,
    plugins: Archiving,
    additions: Archiving,
    engineRun: EngineRun)

  datatype PushResult = Pushed | NoConnection | PushRefused

  /** The status writes of an attempt, in order, and whether an exception left it. */
  datatype Attempt = Attempt(writes: seq<Status>, raises: bool)

  /** How one archive step ends: normally, by ArchivingError, or by another exception. */
  datatype Verdict = Fine | Rejecting(writes: seq<Status>) | Raising

  function Sources(items: seq<SourceResult>): (v: Verdict)
    ensures v.Rejecting? ==> v.writes == [Error]
  {
    if items == [] then Fine
    else match items[0]
      case SourceFailed => Rejecting([Error])
      case SourceRaised => Raising
      case _ => Sources(items[1..])
  }

  function Archives(items: seq<SourceResult>): seq<Tar> {
    if items == [] then []
    else (if items[0].Archived? then [items[0].tar] else []) + Archives(items[1..])
  }

  function Unpacking(tars: seq<Tar>): (v: Verdict)
    ensures v.Rejecting? ==> v.writes == []
  {
    if tars == [] then Fine
    else match tars[0]
      case Accepted => Unpacking(tars[1..])
      case Rejected => Rejecting([])
      case TarRaised => Raising
  }

  function ArchiveVerdict(a: Archiving): (v: Verdict)
    ensures v.Rejecting? ==> v.writes in {[], [Error], [ConnectionError]}
  {
    var first := Sources(a.items);
    if !first.Fine? then first
    else
      var tars := Archives(a.items);
      var second :=
        if tars != [] then Unpacking(tars)
        else if a.mkdir.Refused? then Rejecting([ConnectionError])
        else Fine;
      if second.Fine? && a.packRaises then Raising else second
  }

  function EngineWrites(e: EngineRun): seq<Status> {
    match e
    case StreamError => [Error]
    case EngineRaised => [Error]
    case Completed(LayerMissing) => [Error, Built]
    case Completed(SquashRaised) => [Error]
    case Completed(_) => [Built]
  }

  /** The attempt of a build whose guards let it through: it starts by writing BUILDING. */
  function BuildAttempt(env: Environment): (a: Attempt)
    ensures 1 <= |a.writes| <= 3 && a.writes[0] == Building
    ensures forall i :: 0 <= i < |a.writes| ==> a.writes[i] in {Building, Error, ConnectionError, Built}
    ensures a.raises ==> a.writes == [Building]
  {
    if env.source == Some(SourceFailed) then Attempt([Building, Error], false)
    else if env.source == Some(SourceRaised) then Attempt([Building], true)
    else match ArchiveVerdict(env.plugins)
      case Raising => Attempt([Building], true)
      case Rejecting(ws) => Attempt([Building] + ws, false)
      case Fine =>
        match ArchiveVerdict(env.additions)
        case Raising => Attempt([Building], true)
        case Rejecting(ws) => Attempt([Building] + ws, false)
        case Fine => Attempt([Building] + EngineWrites(env.engineRun), false)
  }

  function PushWrite(r: PushResult): Status {
    match r
    case Pushed => Built
    case NoConnection => ConnectionError
    case PushRefused => PushError
  }

  /** The status an image has once the remaining writes of an attempt are done. */
  function Final(now: Status, writes: seq<Status>): Status {
    if writes == [] then now else writes[|writes| - 1]
  }
}
