/** The tasks of the two queues as objects: they write the status of their image step by step. */
module Tasks {
  import opened Statuses
  import opened Attempts
  import opened Images

  /** The writes of one run of a build task, from the statuses its guards see. */
  function Attempting(own: Status, parent: Option<Status>, env: Environment): Attempt {
    if Excluded(own) then Attempt([], false)
    else if parent.Some? && IsError(parent.value) then Attempt([ParentError], false)
    else BuildAttempt(env)
  }

  ghost function ParentStatus(image: Image): Option<Status>
    reads image`parent, if image.parent == null then {} else {image.parent}
  {
    if image.parent == null then None else Some(image.parent.status)
  }

  /** The images among `children` that are to be built. */
  function Kept(children: seq<Image>): seq<Image>
    reads children`status
  {
    if children == [] then []
    else Kept(children[..|children| - 1])
         + (if Excluded(children[|children| - 1].status) then [] else [children[|children| - 1]])
  }

  /** Ways to leave a piece of code: normally, or with an exception. */
  datatype Exit = Normal | ArchivingError | Exception

  function ExitOf(v: Verdict): Exit {
    match v
    case Fine => Normal
    case Rejecting(_) => ArchivingError
    case Raising => Exception
  }

  function WritesOf(v: Verdict): seq<Status> {
    if v.Rejecting? then v.writes else []
  }

  /** The first archive step that does not end well, if any. */
  function FirstBad(env: Environment): Verdict {
    if !ArchiveVerdict(env.plugins).Fine? then ArchiveVerdict(env.plugins) else ArchiveVerdict(env.additions)
  }

  lemma ItemsBegin(items: seq<SourceResult>)
    ensures items[0..] == items && [] + Archives(items) == Archives(items)
  {
  }

  /** One more item of the loop. */
  lemma ItemsNext(items: seq<SourceResult>, i: nat, archives: seq<Tar>)
    requires i < |items|
    ensures items[i].SourceFailed? ==> Sources(items[i..]) == Rejecting([Error])
    ensures items[i].SourceRaised? ==> Sources(items[i..]) == Raising
    ensures !items[i].SourceFailed? && !items[i].SourceRaised? ==> Sources(items[i..]) == Sources(items[i + 1..])
    ensures archives + Archives(items[i..])
         == (if items[i].Archived? then archives + [items[i].tar] else archives) + Archives(items[i + 1..])
  {
    assert items[i..][0] == items[i] && items[i..][1..] == items[i + 1..];
  }

  lemma ItemsEnd(items: seq<SourceResult>, archives: seq<Tar>)
    ensures Sources(items[|items|..]) == Fine && archives + Archives(items[|items|..]) == archives
  {
  }

  class BuildTask {
    const image: Image
    var success: bool
    ghost var written: seq<Status>      // every status this task has written, in order

    constructor (image: Image)
      ensures this.image == image && !success && written == []
    {
      this.image, success, written := image, false, [];
    }

    /** `image.status = value`. */
    method Write(value: Status)
      modifies image`status, this`written
      ensures image.status == value && written == old(written) + [value]
    {
      image.status := value;
      written := written + [value];
    }

    /** `process_source`, with what fetching the source comes to. */
    method ProcessSource(result: SourceResult) returns (exit: Exit, archive: Option<Tar>)
      modifies image`status, this`written
      ensures exit == if result.SourceRaised? then Exception else Normal
      ensures archive == if result.Archived? then Some(result.tar) else None
      ensures result.SourceFailed? ==> image.status == Error && written == old(written) + [Error]
      ensures !result.SourceFailed? ==> image.status == old(image.status) && written == old(written)
    {
      exit, archive := Normal, None;
      match result
      case NoArchive =>
      case Archived(tar) => archive := Some(tar);
      case SourceFailed => Write(Error);
      case SourceRaised => exit := Exception;
    }

    /** The loop of `make_an_archive` that fetches the items. */
    method ProcessItems(items: seq<SourceResult>) returns (exit: Exit, archives: seq<Tar>)
      requires !IsError(image.status)
      modifies image`status, this`written
      ensures exit == ExitOf(Sources(items))
      ensures written == old(written) + WritesOf(Sources(items))
      ensures image.status == Final(old(image.status), WritesOf(Sources(items)))
      ensures exit.Normal? ==> archives == Archives(items)
    {
      hide Sources, Archives;
      exit, archives := Normal, [];
      ItemsBegin(items);
      for i := 0 to |items|
        invariant exit.Normal? && image.status == old(image.status) && written == old(written)
        invariant Sources(items) == Sources(items[i..])
        invariant Archives(items) == archives + Archives(items[i..])
      {
        ItemsNext(items, i, archives);
        var archive;
        exit, archive := ProcessSource(items[i]);
        if exit.Exception? {
          return;
        }
        if IsError(image.status) {
          exit := ArchivingError;
          return;
        }
        if archive.Some? {
          archives := archives + [archive.value];
        }
      }
      ItemsEnd(items, archives);
    }

    /** The loop of `make_an_archive` that unpacks the archives. */
    method Unpack(archives: seq<Tar>) returns (exit: Exit)
      ensures exit == ExitOf(Unpacking(archives))
    {
      for i := 0 to |archives|
        invariant Unpacking(archives) == Unpacking(archives[i..])
      {
        match archives[i]
        case Accepted =>
        case Rejected => return ArchivingError;
        case TarRaised => return Exception;
      }
      return Normal;
    }

    /** `make_an_archive`. */
    method MakeAnArchive(a: Archiving) returns (exit: Exit)
      requires !IsError(image.status)
      modifies image`status, this`written
      ensures exit == ExitOf(ArchiveVerdict(a))
      ensures written == old(written) + WritesOf(ArchiveVerdict(a))
      ensures image.status == Final(old(image.status), WritesOf(ArchiveVerdict(a)))
    {
      var archives;
      exit, archives := ProcessItems(a.items);
      if !exit.Normal? {
        return;
      }
      if archives != [] {
        exit := Unpack(archives);
        if !exit.Normal? {
          return;
        }
      } else if a.mkdir.Refused? {
        Write(ConnectionError);
        return ArchivingError;
      }
      if a.packRaises {
        exit := Exception;
      }
    }

    /** The engine call of `builder` with its handlers; `squash` may write a status that is overwritten. */
    method RunEngine(e: EngineRun)
      modifies image`status, this`written
      ensures written == old(written) + EngineWrites(e)
      ensures image.status == Final(old(image.status), EngineWrites(e))
    {
      match e
      case StreamError => Write(Error);
      case EngineRaised => Write(Error);
      case Completed(squash) =>
        if squash.SquashRaised? {
          Write(Error);
          return;
        }
        if squash.LayerMissing? {
          Write(Error);
        }
        Write(Built);
    }

    /** The archives of `builder`: what is left to do after the guards and the main source. */
    method MakeArchives(env: Environment) returns (exit: Exit)
      requires !IsError(image.status)
      modifies image`status, this`written
      ensures exit == ExitOf(FirstBad(env))
      ensures written == old(written) + WritesOf(FirstBad(env))
      ensures image.status == Final(old(image.status), WritesOf(FirstBad(env)))
    {
      exit := MakeAnArchive(env.plugins);
      if exit.Normal? {
        exit := MakeAnArchive(env.additions);
      }
    }

    /** `builder` behind its guards. */
    method Build(env: Environment) returns (exit: Exit)
      modifies image`status, this`written
      ensures written == old(written) + BuildAttempt(env).writes
      ensures image.status == Final(old(image.status), BuildAttempt(env).writes)
      ensures exit == if BuildAttempt(env).raises then Exception else Normal
    {
      hide ArchiveVerdict, EngineWrites;
      Write(Building);
      if env.source.Some? {
        var archive;
        exit, archive := ProcessSource(env.source.value);
        if exit.Exception? || IsError(image.status) {
          return;
        }
      }
      exit := MakeArchives(env);
      if !exit.Normal? {
        return if exit.Exception? then Exception else Normal;
      }
      RunEngine(env.engineRun);
      return Normal;
    }

    /** `builder`. */
    method Builder(env: Environment) returns (exit: Exit)
      modifies image`status, this`written
      ensures var a := Attempting(old(image.status), old(ParentStatus(image)), env);
        && written == old(written) + a.writes
        && image.status == Final(old(image.status), a.writes)
        && exit == if a.raises then Exception else Normal
    {
      if image.status == Skipped || image.status == Unbuildable {
        return Normal;
      }
      if image.status == Unmatched {
        return Normal;
      }
      if image.parent != null && IsError(image.parent.status) {
        Write(ParentError);
        return Normal;
      }
      exit := Build(env);
    }

    /** `run`: `success` is only ever set, never cleared. */
    method Run(env: Environment) returns (exit: Exit)
      modifies image`status, this`written, this`success
      ensures var a := Attempting(old(image.status), old(ParentStatus(image)), env);
        && written == old(written) + a.writes
        && image.status == Final(old(image.status), a.writes)
        && exit == (if a.raises then Exception else Normal)
      ensures old(image.status) in {Unmatched, Skipped, Unbuildable} ==> written == old(written) && exit.Normal?
      ensures old(image.status) !in {Unmatched, Skipped, Unbuildable} ==>
        if image.parent != null && old(image.parent.status) in {ConnectionError, PushError, Error, ParentError} then
          written == old(written) + [ParentError] && image.status == ParentError && exit.Normal?
        else
          written == old(written) + BuildAttempt(env).writes
      ensures success == (old(success) || (exit.Normal? && (image.status == Built || image.status == Skipped)))
    {
      exit := Builder(env);
      if exit.Exception? {
        return;
      }
      if image.status == Built || image.status == Skipped {
        success := true;
      }
    }

    /**
     * `followups`: whether to hand a push over, and the images to build next: the children
     * at the positions `at`, in their order, each one that is not excluded exactly as often as it is listed.
     */
    method Followups(push: bool) returns (transfer: bool, builds: seq<Image>, ghost at: seq<nat>)
      ensures transfer <==> push && success
      ensures !success ==> builds == []
      ensures success ==> Picked(image.children, builds, at)
      ensures success ==> forall c: Image ::
        multiset(builds)[c] == if c.status in {Unmatched, Skipped, Unbuildable} then 0 else multiset(image.children)[c]
    {
      transfer, builds, at := push && success, [], [];
      if success {
        if image.children != [] {
          for i := 0 to |image.children|
            invariant builds == Kept(image.children[..i])
          {
            assert image.children[..i + 1][..i] == image.children[..i];
            var child := image.children[i];
            if child.status == Unmatched || child.status == Skipped || child.status == Unbuildable {
              continue;
            }
            builds := builds + [child];
          }
          assert image.children[..|image.children|] == image.children;
        }
        at := KeptPositions(image.children);
        forall c: Image
          ensures multiset(builds)[c] == if c.status in {Unmatched, Skipped, Unbuildable} then 0 else multiset(image.children)[c]
        {
          KeptCounts(image.children, c);
        }
      }
    }
  }

  /** The images at the positions `at` are picked: in order, and exactly those that filtering did not exclude. */
  ghost predicate Picked(children: seq<Image>, picked: seq<Image>, at: seq<nat>)
    reads children`status
  {
    && |at| == |picked|
    && (forall i, j :: 0 <= i < j < |at| ==> at[i] < at[j])
    && (forall i :: 0 <= i < |at| ==> at[i] < |children| && picked[i] == children[at[i]])
    && (forall k :: 0 <= k < |children| ==> (k in at <==> children[k].status !in {Unmatched, Skipped, Unbuildable}))
  }

  /** One more child behind the list. */
  lemma PickedSnoc(children: seq<Image>, c: Image, picked: seq<Image>, at: seq<nat>)
    requires Picked(children, picked, at)
    ensures c.status in {Unmatched, Skipped, Unbuildable} ==> Picked(children + [c], picked, at)
    ensures c.status !in {Unmatched, Skipped, Unbuildable} ==> Picked(children + [c], picked + [c], at + [|children|])
  {
    var n := |children|;
    forall i | 0 <= i < |at| ensures at[i] < n && picked[i] == (children + [c])[at[i]] {
      assert (children + [c])[at[i]] == children[at[i]];
    }
    assert n !in at;
    forall k | 0 <= k <= n
      ensures k in at + [n] <==> k in at || k == n
      ensures k < n ==> (k in at <==> (children + [c])[k].status !in {Unmatched, Skipped, Unbuildable})
    {
      assert k < n ==> (children + [c])[k] == children[k];
    }
  }

  /** Where the images that are kept stand in the list. */
  lemma {:induction false} KeptPositions(children: seq<Image>) returns (at: seq<nat>)
    ensures Picked(children, Kept(children), at)
  {
    at := [];
    if children != [] {
      var n := |children| - 1;
      at := KeptPositions(children[..n]);
      PickedSnoc(children[..n], children[n], Kept(children[..n]), at);
      assert children == children[..n] + [children[n]];
      assert Kept(children[..n]) + [] == Kept(children[..n]);
      if !Excluded(children[n].status) {
        at := at + [n];
      }
      hide Picked;
    }
  }

  /** The last child taken away. */
  lemma PickedFront(children: seq<Image>, picked: seq<Image>, at: seq<nat>)
    requires Picked(children, picked, at) && children != []
    ensures var n, m := |children| - 1, |at| - 1;
      && (Excluded(children[n].status) ==> Picked(children[..n], picked, at))
      && (!Excluded(children[n].status) ==>
            m >= 0 && picked[m] == children[n] && Picked(children[..n], picked[..m], at[..m]))
  {
    var n, m := |children| - 1, |at| - 1;
    if Excluded(children[n].status) {
      forall i | 0 <= i < |at| ensures at[i] < n && picked[i] == children[..n][at[i]] {
        assert at[i] in at;
      }
    } else {
      var i :| 0 <= i < |at| && at[i] == n;
      assert i == m;
      forall k | 0 <= k < n ensures k in at[..m] <==> k in at {
        if k in at {
          var j :| 0 <= j < |at| && at[j] == k;
          assert at[..m][j] == k;
        }
      }
    }
  }

  /** Nothing else can be picked than what is kept. */
  lemma {:induction false} PickedIsKept(children: seq<Image>, picked: seq<Image>, at: seq<nat>)
    requires Picked(children, picked, at)
    ensures picked == Kept(children)
    decreases |children|
  {
    if children != [] {
      var n, m := |children| - 1, |at| - 1;
      PickedFront(children, picked, at);
      if Excluded(children[n].status) {
        PickedIsKept(children[..n], picked, at);
      } else {
        PickedIsKept(children[..n], picked[..m], at[..m]);
        assert picked == picked[..m] + [picked[m]];
      }
      hide Picked;
    } else {
      assert picked == [];
    }
  }

  /** An image is kept as often as it is listed, if it was not excluded. */
  lemma {:induction false} KeptCounts(children: seq<Image>, c: Image)
    ensures multiset(Kept(children))[c] == if c.status in {Unmatched, Skipped, Unbuildable} then 0 else multiset(children)[c]
  {
    if children != [] {
      var n := |children| - 1;
      KeptCounts(children[..n], c);
      assert children == children[..n] + [children[n]];
    }
  }

  class PushTask {
    const image: Image
    var success: bool

    constructor (image: Image)
      ensures this.image == image && !success
    {
      this.image, success := image, false;
    }

    /** `run` with `push_image`: a successful push resets any earlier error. */
    method Run(result: PushResult)
      modifies image`status, this`success
      ensures image.status == PushWrite(result)
      ensures success <==> result.Pushed?
      ensures result.Pushed? <==> image.status == Built
      ensures result.NoConnection? <==> image.status == ConnectionError
      ensures result.PushRefused? <==> image.status == PushError
    {
      match result {
        case Pushed => image.status := Built;
        case NoConnection => image.status := ConnectionError;
        case PushRefused => image.status := PushError;
      }
      if !IsError(image.status) && image.status != Unprocessed {
        success := true;
      } else {
        success := false;
      }
    }
  }

  // ---------------------------------------------------------------- how an attempt can end

  /** Nothing goes wrong in one call of `make_an_archive`. */
  ghost predicate Clean(a: Archiving) {
    && (forall i :: 0 <= i < |a.items| ==> !a.items[i].SourceFailed? && !a.items[i].SourceRaised?)
    && (forall i :: 0 <= i < |a.items| && a.items[i].Archived? ==> a.items[i].tar.Accepted?)
    && ((forall i :: 0 <= i < |a.items| ==> !a.items[i].Archived?) ==> !a.mkdir.Refused?)
    && !a.packRaises
  }

  lemma {:induction false} SourcesFine(items: seq<SourceResult>)
    ensures Sources(items).Fine? <==> forall i :: 0 <= i < |items| ==> !items[i].SourceFailed? && !items[i].SourceRaised?
  {
    if items != [] {
      SourcesFine(items[1..]);
      assert forall i :: 1 <= i < |items| ==> items[i] == items[1..][i - 1];
    }
  }

  lemma {:induction false} UnpackingFine(items: seq<SourceResult>)
    ensures Unpacking(Archives(items)).Fine? <==> forall i :: 0 <= i < |items| && items[i].Archived? ==> items[i].tar.Accepted?
    ensures Archives(items) == [] <==> forall i :: 0 <= i < |items| ==> !items[i].Archived?
  {
    if items != [] {
      UnpackingFine(items[1..]);
      assert forall i :: 1 <= i < |items| ==> items[i] == items[1..][i - 1];
      if items[0].Archived? {
        assert Archives(items)[1..] == Archives(items[1..]);
      } else {
        assert Archives(items) == Archives(items[1..]);
      }
    }
  }

  lemma CleanIff(a: Archiving)
    ensures ArchiveVerdict(a).Fine? <==> Clean(a)
  {
    SourcesFine(a.items);
    UnpackingFine(a.items);
  }

  /** The attempt ends BUILT exactly if no stage failed; a squash without a parent layer counts as no failure. */
  lemma BuiltIff(env: Environment)
    ensures Final(Matched, BuildAttempt(env).writes).Built? <==>
      && (env.source.Some? ==> !env.source.value.SourceFailed? && !env.source.value.SourceRaised?)
      && Clean(env.plugins) && Clean(env.additions)
      && env.engineRun.Completed? && !env.engineRun.squash.SquashRaised?
  {
    hide Clean, ArchiveVerdict;
    CleanIff(env.plugins);
    CleanIff(env.additions);
  }

  // ---------------------------------------------------------------- ends that the status does not show

  /** Item `i` is the first that does not deliver, and it raises. */
  ghost predicate RaisesAt(items: seq<SourceResult>, i: int) {
    && 0 <= i < |items| && items[i].SourceRaised?
    && forall j :: 0 <= j < i ==> !items[j].SourceFailed? && !items[j].SourceRaised?
  }

  ghost predicate Delivered(items: seq<SourceResult>) {
    forall i :: 0 <= i < |items| ==> !items[i].SourceFailed? && !items[i].SourceRaised?
  }

  ghost predicate SomeArchive(items: seq<SourceResult>) {
    exists i :: 0 <= i < |items| && items[i].Archived?
  }

  ghost predicate BadArchive(items: seq<SourceResult>) {
    exists i :: 0 <= i < |items| && items[i].Archived? && !items[i].tar.Accepted?
  }

  /**
   * One call of `make_an_archive` stops without writing a status: fetching raises, an archive is
   * no good, or everything is fetched and unpacked and packing it again raises.
   */
  ghost predicate StopsSilently(a: Archiving) {
    || (exists i :: RaisesAt(a.items, i))
    || (Delivered(a.items) && BadArchive(a.items))
    || (Delivered(a.items) && !BadArchive(a.items) && (SomeArchive(a.items) || !a.mkdir.Refused?) && a.packRaises)
  }

  lemma {:induction false} SourcesRaise(items: seq<SourceResult>)
    ensures Sources(items).Raising? <==> exists i :: RaisesAt(items, i)
  {
    if items != [] {
      SourcesRaise(items[1..]);
      if i :| RaisesAt(items[1..], i) && !items[0].SourceFailed? && !items[0].SourceRaised? {
        assert forall j :: 1 <= j < i + 1 ==> items[j] == items[1..][j - 1];
        assert RaisesAt(items, i + 1);
      }
      if items[0].SourceRaised? {
        assert RaisesAt(items, 0);
      }
      if i :| RaisesAt(items, i) && i > 0 {
        assert forall j :: 0 <= j < i - 1 ==> items[1..][j] == items[j + 1];
        assert RaisesAt(items[1..], i - 1);
      }
    }
  }

  lemma StopsSilentlyIff(a: Archiving)
    ensures StopsSilently(a) <==> ArchiveVerdict(a).Raising? || ArchiveVerdict(a) == Rejecting([])
  {
    hide RaisesAt;
    SourcesRaise(a.items);
    SourcesFine(a.items);
    UnpackingFine(a.items);
  }

  /**
   * The image is left BUILDING exactly if fetching the source raised, or the source was there and
   * the plugins stopped silently, or the plugins were fine and the additions stopped silently.
   */
  lemma StuckBuildingIff(env: Environment)
    ensures Final(Matched, BuildAttempt(env).writes).Building? <==>
      || env.source == Some(SourceRaised)
      || (env.source != Some(SourceFailed)
          && (StopsSilently(env.plugins) || (Clean(env.plugins) && StopsSilently(env.additions))))
  {
    hide StopsSilently, Clean;
    StopsSilentlyIff(env.plugins);
    StopsSilentlyIff(env.additions);
    CleanIff(env.plugins);
  }

  /** The first item that does not deliver fails. */
  ghost predicate FailsFirst(items: seq<SourceResult>) {
    exists i :: 0 <= i < |items| && items[i].SourceFailed? && Delivered(items[..i])
  }

  /** Everything was delivered, there is nothing to unpack, and the empty directory cannot be made. */
  ghost predicate CannotMake(a: Archiving) {
    Delivered(a.items) && !SomeArchive(a.items) && a.mkdir.Refused?
  }

  lemma {:induction false} SourcesFail(items: seq<SourceResult>)
    ensures Sources(items) == Rejecting([Error]) <==> FailsFirst(items)
  {
    if items != [] {
      SourcesFail(items[1..]);
      if items[0].SourceFailed? {
        assert Delivered(items[..0]);
      }
      if i :| 0 <= i < |items| && items[i].SourceFailed? && Delivered(items[..i]) && i > 0 {
        assert items[..i][0] == items[0];
        assert items[1..][..i - 1] == items[..i][1..];
        assert items[1..][i - 1] == items[i];
      }
      if !items[0].SourceFailed? && !items[0].SourceRaised? && FailsFirst(items[1..]) {
        var i :| 0 <= i < |items[1..]| && items[1..][i].SourceFailed? && Delivered(items[1..][..i]);
        assert items[..i + 1] == [items[0]] + items[1..][..i];
        assert items[i + 1] == items[1..][i];
      }
    }
  }

  /** Which status an archive stage writes when it fails with one. */
  lemma ArchiveErrors(a: Archiving)
    ensures ArchiveVerdict(a) == Rejecting([Error]) <==> FailsFirst(a.items)
    ensures ArchiveVerdict(a) == Rejecting([ConnectionError]) <==> CannotMake(a)
  {
    hide FailsFirst;
    SourcesFail(a.items);
    SourcesFine(a.items);
    UnpackingFine(a.items);
    SomeArchives(a.items);
  }

  lemma {:induction false} SomeArchives(items: seq<SourceResult>)
    ensures Archives(items) != [] <==> SomeArchive(items)
  {
    if items != [] {
      SomeArchives(items[1..]);
      if i :| 0 <= i < |items[1..]| && items[1..][i].Archived? {
        assert items[i + 1].Archived?;
      }
      if i :| 0 <= i < |items| && items[i].Archived? && i > 0 {
        assert items[1..][i - 1].Archived?;
      }
    }
  }

  /**
   * An attempt ends with ERROR exactly if the source failed, or at the first stage that did not
   * work an item failed or the engine did; and with CONNECTION_ERROR exactly if at that stage the
   * directory for an empty archive could not be made.
   */
  lemma AttemptEnds(env: Environment)
    ensures var v := Final(Matched, BuildAttempt(env).writes);
      && (v == Error <==>
            || env.source == Some(SourceFailed)
            || (env.source != Some(SourceRaised)
                && (|| FailsFirst(env.plugins.items)
                    || (Clean(env.plugins) && FailsFirst(env.additions.items))
                    || (Clean(env.plugins) && Clean(env.additions)
                        && env.engineRun in {StreamError, EngineRaised, Completed(SquashRaised)}))))
      && (v == ConnectionError <==>
            && env.source != Some(SourceFailed) && env.source != Some(SourceRaised)
            && (CannotMake(env.plugins) || (Clean(env.plugins) && CannotMake(env.additions))))
  {
    hide Clean, FailsFirst, CannotMake, ArchiveVerdict;
    CleanIff(env.plugins);
    CleanIff(env.additions);
    ArchiveErrors(env.plugins);
    ArchiveErrors(env.additions);
  }

  /** Everything was delivered, and the first archive that is not accepted raises. */
  ghost predicate ArchiveRaises(items: seq<SourceResult>) {
    && Delivered(items)
    && exists i :: 0 <= i < |items| && items[i] == Archived(TarRaised)
         && forall j :: 0 <= j < i && items[j].Archived? ==> items[j].tar.Accepted?
  }

  lemma {:induction false} UnpackingRaises(items: seq<SourceResult>)
    requires Delivered(items)
    ensures Unpacking(Archives(items)).Raising? <==> ArchiveRaises(items)
  {
    if items != [] {
      assert forall i :: 0 <= i < |items[1..]| ==> items[1..][i] == items[i + 1];
      UnpackingRaises(items[1..]);
      UnpackingStep(items);
      if items[0] == Archived(TarRaised) {
        assert ArchiveRaises(items);
      } else if !items[0].Archived? || items[0].tar.Accepted? {
        if i :| 0 <= i < |items[1..]| && items[1..][i] == Archived(TarRaised)
                && forall j :: 0 <= j < i && items[1..][j].Archived? ==> items[1..][j].tar.Accepted? {
          assert items[i + 1] == Archived(TarRaised);
        }
        if i :| 0 <= i < |items| && items[i] == Archived(TarRaised)
                && forall j :: 0 <= j < i && items[j].Archived? ==> items[j].tar.Accepted? {
          assert items[1..][i - 1] == Archived(TarRaised);
        }
      }
    }
  }

  lemma UnpackingStep(items: seq<SourceResult>)
    requires items != []
    ensures Unpacking(Archives(items)) ==
      if !items[0].Archived? || items[0].tar.Accepted? then Unpacking(Archives(items[1..]))
      else if items[0].tar.Rejected? then Rejecting([]) else Raising
  {
    var rest := Archives(items[1..]);
    if items[0].Archived? {
      assert ([items[0].tar] + rest)[1..] == rest;
    } else {
      assert [] + rest == rest;
    }
  }

  /** An archive stage raises: an item does, an archive does, or packing does after all else went well. */
  ghost predicate Crashes(a: Archiving) {
    || (exists i :: RaisesAt(a.items, i))
    || ArchiveRaises(a.items)
    || (Delivered(a.items) && !BadArchive(a.items) && (SomeArchive(a.items) || !a.mkdir.Refused?) && a.packRaises)
  }

  lemma CrashesIff(a: Archiving)
    ensures ArchiveVerdict(a).Raising? <==> Crashes(a)
  {
    hide RaisesAt, ArchiveRaises;
    SourcesRaise(a.items);
    SourcesFine(a.items);
    if Delivered(a.items) {
      UnpackingRaises(a.items);
      UnpackingFine(a.items);
      SomeArchives(a.items);
    }
    ArchiveRaisesDelivered(a.items);
  }

  lemma ArchiveRaisesDelivered(items: seq<SourceResult>)
    ensures ArchiveRaises(items) ==> Delivered(items) && SomeArchive(items)
  {
  }

  /** An exception leaves the attempt exactly if fetching the source raised or an archive stage that was reached crashed. */
  lemma AttemptRaises(env: Environment)
    ensures BuildAttempt(env).raises <==>
      || env.source == Some(SourceRaised)
      || (env.source != Some(SourceFailed) && (Crashes(env.plugins) || (Clean(env.plugins) && Crashes(env.additions))))
  {
    hide Crashes, Clean, ArchiveVerdict;
    CrashesIff(env.plugins);
    CrashesIff(env.additions);
    CleanIff(env.plugins);
  }

  /** An attempt with a plugin archive that is rejected: it returns, and the image stays BUILDING. */
  lemma RejectedPluginSticks()
    ensures var env := Environment(None, Archiving([Archived(Rejected)], Made, false), Archiving([], Made, false), Completed(NotAsked));
      BuildAttempt(env) == Attempt([Building], false)
  {
    var items := [Archived(Rejected)];
    assert items[1..] == [];
    assert Archives(items) == [Rejected];
  }

  /** An ERROR is written and lost exactly if everything worked but `squash` found no parent layer. */
  lemma SquashErrorLost(env: Environment)
    ensures var ws := BuildAttempt(env).writes;
      Error in ws && Final(Matched, ws) != Error <==>
        && (env.source.Some? ==> !env.source.value.SourceFailed? && !env.source.value.SourceRaised?)
        && Clean(env.plugins) && Clean(env.additions) && env.engineRun == Completed(LayerMissing)
    ensures var ws := BuildAttempt(env).writes;
      Error in ws && Final(Matched, ws) != Error ==> ws == [Building, Error, Built]
  {
    hide Clean, ArchiveVerdict;
    CleanIff(env.plugins);
    CleanIff(env.additions);
  }

  /** An attempt whose squash fails, and that is BUILT. */
  lemma LayerMissingIsBuilt()
    ensures var nothing := Archiving([], Made, false);
      BuildAttempt(Environment(None, nothing, nothing, Completed(LayerMissing))) == Attempt([Building, Error, Built], false)
  {
  }
}
