/** `KollaWorker`: linking the images, filtering them, seeding the build queue and reporting. */
module Worker {
  import opened Statuses
  import opened Forest
  import opened Images
  import opened Filtering
  import opened Reports
  import P = Protocol

  ghost predicate Untouched(images: seq<Image>)
    reads images`status
  {
    forall i :: 0 <= i < |images| ==> images[i].status == Unprocessed
  }

  ghost predicate Unlinked(images: seq<Image>)
    reads images`parent, images`children
  {
    forall i :: 0 <= i < |images| ==> images[i].parent == null && images[i].children == []
  }

  /** The links that `find_parents` has made when the first `k` registered images are handled. */
  ghost predicate LinkedUpTo(vals: seq<Image>, k: nat)
    reads vals`parent, vals`children
    requires k <= |vals|
  {
    && (forall b :: 0 <= b < |vals| ==> vals[b].parent == Named(vals[..k], vals[b].parentName))
    && (forall b :: 0 <= b < |vals| ==> vals[b].children == if b < k then NamingParent(vals, vals[b].canonicalName) else [])
  }

  /** How far `find_parents` has got: images that are not registered are not linked. */
  ghost predicate Finding(images: seq<Image>, vals: seq<Image>, k: nat)
    reads images`parent, images`children, vals`parent, vals`children
  {
    && k <= |vals| && DistinctNames(vals) && Listed(images, vals)
    && LinkedUpTo(vals, k)
    && OthersUnlinked(images, vals)
  }

  ghost predicate Listed(images: seq<Image>, vals: seq<Image>) {
    forall b :: 0 <= b < |vals| ==> vals[b] in images
  }

  ghost predicate OthersUnlinked(images: seq<Image>, vals: seq<Image>)
    reads (set x | x in images && x !in vals)`parent, (set x | x in images && x !in vals)`children
  {
    forall x <- images :: x !in vals ==> x.parent == null && x.children == []
  }

  lemma FindingMeans(images: seq<Image>, vals: seq<Image>, k: nat)
    requires Finding(images, vals, k)
    ensures k <= |vals| && DistinctNames(vals) && Listed(images, vals) && LinkedUpTo(vals, k) && OthersUnlinked(images, vals)
    ensures forall v <- vals :: v in images
  {
  }

  lemma FindingAgain(images: seq<Image>, vals: seq<Image>, k: nat)
    requires k <= |vals| && DistinctNames(vals) && Listed(images, vals) && LinkedUpTo(vals, k) && OthersUnlinked(images, vals)
    ensures Finding(images, vals, k)
  {
  }

  lemma FindingStart(images: seq<Image>, vals: seq<Image>)
    requires Unlinked(images) && DistinctNames(vals) && forall v <- vals :: v in images
    ensures Finding(images, vals, 0)
  {
    forall b | 0 <= b < |vals| ensures vals[b] in images && vals[b].parent == null && vals[b].children == [] {
      assert vals[b] in vals;
      var i :| 0 <= i < |images| && images[i] == vals[b];
    }
  }

  lemma FindingEnd(images: seq<Image>, vals: seq<Image>)
    requires Numbered(images) && vals == Registered(images) && Finding(images, vals, |vals|)
    ensures ParentsFound(images)
  {
  }

  /** What `find_parents` leaves behind: only registered images are linked. */
  ghost predicate ParentsFound(images: seq<Image>)
    reads images`parent, images`children
  {
    var vals := Registered(images);
    && Numbered(images) && DistinctNames(vals)
    && (forall b :: 0 <= b < |vals| ==> vals[b] in images)
    && LinkedUpTo(vals, |vals|)
    && (forall x <- images :: x !in vals ==> x.parent == null && x.children == [])
  }

  /** A registered image's parent is the one image with the name it asks for, and it is a child of it. */
  lemma ParentLink(images: seq<Image>, x: Image)
    requires ParentsFound(images) && x in images && x.parent != null
    ensures x.parent in images && x in x.parent.children && x.parent.canonicalName == x.parentName
  {
    var vals := Registered(images);
    assert vals[..|vals|] == vals;
    NamingParentFacts(vals, x.parentName);
  }

  /** The children of an image are different images whose parent it is. */
  lemma ChildLinks(images: seq<Image>, x: Image)
    requires ParentsFound(images) && x in images
    ensures forall c <- x.children :: c in images && c.parent == x && c.parentName == x.canonicalName
    ensures forall i, j :: 0 <= i < j < |x.children| ==> x.children[i] != x.children[j]
  {
    var vals := Registered(images);
    assert vals[..|vals|] == vals;
    NamingParentFacts(vals, x.canonicalName);
    if x in vals {
      forall c <- x.children ensures c in images && c.parent == x && c.parentName == x.canonicalName {
        var p := Named(vals, c.parentName);
        assert c in vals;
        assert x in vals && x.canonicalName == c.parentName;
        var i, j :| 0 <= i < |vals| && 0 <= j < |vals| && vals[i] == x && vals[j] == p;
      }
    }
  }

  /** No later image has the same canonical name. */
  ghost predicate LastNamed(images: seq<Image>, i: nat)
    requires i < |images|
  {
    forall j :: i < j < |images| ==> images[j].canonicalName != images[i].canonicalName
  }

  /** The last image with the name of image `i`. */
  lemma {:induction false} LastOfName(images: seq<Image>, i: nat, k: nat) returns (j: nat)
    requires i <= k < |images| && images[k].canonicalName == images[i].canonicalName
    ensures k <= j < |images| && images[j].canonicalName == images[i].canonicalName && LastNamed(images, j)
    decreases |images| - k
  {
    j := k;
    if !LastNamed(images, k) {
      var l :| k < l < |images| && images[l].canonicalName == images[k].canonicalName;
      j := LastOfName(images, i, l);
    }
  }

  lemma OneOfName(vals: seq<Image>, x: Image, y: Image)
    requires DistinctNames(vals)
    ensures x in vals && y in vals && x.canonicalName == y.canonicalName ==> x == y
  {
    if x in vals && y in vals {
      var a, b :| 0 <= a < |vals| && 0 <= b < |vals| && vals[a] == x && vals[b] == y;
    }
  }

  /** Registered are exactly the images that are the last of their name. */
  lemma RegisteredIff(images: seq<Image>, i: nat)
    requires Numbered(images) && i < |images|
    ensures images[i] in Registered(images) <==> LastNamed(images, i)
  {
    hide Registered;
    RegisteredFacts(images);
    var vals := Registered(images);
    if LastNamed(images, i) {
      LastIsRegistered(images, i);
    } else {
      var k :| i < k < |images| && images[k].canonicalName == images[i].canonicalName;
      var j := LastOfName(images, i, k);
      LastIsRegistered(images, j);
      assert images[i].id != images[j].id;
      OneOfName(vals, images[i], images[j]);
    }
  }

  /** Who is whose parent, for every two images of the list: names decide, and of equal names the last image. */
  lemma FoundIff(images: seq<Image>, i: nat, p: nat)
    requires ParentsFound(images) && i < |images| && p < |images|
    ensures images[i].parent == images[p] <==>
      images[i].parentName == images[p].canonicalName && LastNamed(images, i) && LastNamed(images, p)
  {
    hide Registered, NamingParent, LastNamed;
    var vals := Registered(images);
    assert vals[..|vals|] == vals;
    RegisteredIff(images, i);
    RegisteredIff(images, p);
    if images[i] in vals {
      var r := Named(vals, images[i].parentName);
      if r != null {
        OneOfName(vals, r, images[p]);
      }
    }
  }

  lemma ParentLinkAt(images: seq<Image>, i: nat)
    requires ParentsFound(images) && i < |images| && images[i].parent != null
    ensures Inside(images, images[i].parent) && i in Ids(images[i].parent.children)
  {
    ParentLink(images, images[i]);
  }

  lemma ChildLinkAt(images: seq<Image>, p: nat, k: nat)
    requires ParentsFound(images) && p < |images| && k < |images[p].children|
    ensures Inside(images, images[p].children[k]) && images[p].children[k].parent == images[p] && images[p].id == p
    ensures forall l :: k < l < |images[p].children| ==> images[p].children[k] != images[p].children[l]
  {
    ChildLinks(images, images[p]);
    assert images[p].children[k] in images[p].children;
  }

  /** After `find_parents` the objects form a linked forest. */
  lemma FoundIsLinked(images: seq<Image>)
    requires ParentsFound(images)
    ensures LinksInside(images) && Linked(TreesOf(images))
  {
    hide Registered, NamingParent, LinkedUpTo, ParentsFound;
    FoundIsInside(images);
    TreesAt(images);
    forall i | 0 <= i < |images| && images[i].parent != null
      ensures images[i].parent.id < |images| && i in Ids(images[i].parent.children)
    {
      ParentLinkAt(images, i);
    }
    forall p, k | 0 <= p < |images| && 0 <= k < |images[p].children|
      ensures images[p].children[k].id < |images| && images[images[p].children[k].id].parent == images[p] && images[p].id == p
    {
      ChildLinkAt(images, p, k);
    }
    forall p, k, l | 0 <= p < |images| && 0 <= k < l < |images[p].children|
      ensures images[p].children[k].id != images[p].children[l].id
    {
      ChildLinkAt(images, p, k);
      ChildLinkAt(images, p, l);
    }
    hide LinksInside, Inside, TreesOf;
  }

  lemma FoundIsInside(images: seq<Image>)
    requires ParentsFound(images)
    ensures LinksInside(images)
  {
    hide ParentsFound;
    forall i | 0 <= i < |images|
      ensures images[i].parent != null ==> Inside(images, images[i].parent)
      ensures forall c <- images[i].children :: Inside(images, c)
    {
      if images[i].parent != null {
        ParentLinkAt(images, i);
      }
      forall c <- images[i].children ensures Inside(images, c) {
        var k :| 0 <= k < |images[i].children| && images[i].children[k] == c;
        ChildLinkAt(images, i, k);
      }
    }
  }

  /** The objects form a forest: links stay inside the list and there is no cycle. */
  ghost predicate Sound(images: seq<Image>, rank: seq<nat>)
    reads images`parent, images`children
  {
    Numbered(images) && LinksInside(images) && Shaped(TreesOf(images), rank)
  }

  /** What a walk over the ancestors needs to know about the image it is at. */
  lemma At(images: seq<Image>, rank: seq<nat>, x: Image)
    requires Sound(images, rank) && Inside(images, x)
    ensures Numbered(images) && Shaped(TreesOf(images), rank) && x in images
    ensures |TreesOf(images).parents| == |rank| == |images|
    ensures x.id < |images| && StatusesOf(images)[x.id] == x.status
    ensures TreesOf(images).names[x.id] == x.name && TreesOf(images).parents[x.id] == (if x.parent == null then None else Some(x.parent.id))
    ensures TreesOf(images).canonical[x.id] == x.canonicalName && |TreesOf(images).children[x.id]| == |x.children|
    ensures x.parent != null ==> Inside(images, x.parent) && rank[x.parent.id] < rank[x.id]
  {
    TreesAt(images);
    StatusesAt(images);
  }

  lemma Form(images: seq<Image>, rank: seq<nat>)
    requires Sound(images, rank)
    ensures Shaped(TreesOf(images), rank) && |TreesOf(images).parents| == |StatusesOf(images)| == |images|
  {
  }

  lemma FilteringStart(images: seq<Image>, rank: seq<nat>, req: Request)
    requires Sound(images, rank) && Untouched(images)
    ensures Shaped(TreesOf(images), rank) && Marking(TreesOf(images), rank, req, StatusesOf(images), 0)
    ensures req.unbuildable == {} ==> Marking(TreesOf(images), rank, req, StatusesOf(images), |images|)
  {
    hide Marking, Doomed, LinksInside;
    StatusesAt(images);
    MarkingStart(TreesOf(images), rank, req, StatusesOf(images));
  }

  lemma FilteringEnd(images: seq<Image>, rank: seq<nat>, req: Request)
    requires Sound(images, rank) && Skipping(TreesOf(images), rank, req, StatusesOf(images), |images|)
    ensures forall i :: 0 <= i < |images| ==> images[i].status == Expected(TreesOf(images), rank, req, i)
  {
    StatusesAt(images);
  }

  /** The forest and the statuses as the plan of a run. */
  ghost function PlanOf(images: seq<Image>, push: bool, retries: nat, builders: nat, pushers: nat): P.Plan
    reads images`parent, images`children, images`status
  {
    Config(TreesOf(images), StatusesOf(images), push, retries, builders, pushers)
  }

  lemma SeedAt(images: seq<Image>, p: P.Plan, i: nat)
    requires Numbered(images) && LinksInside(images) && i < |images|
    requires p == PlanOf(images, p.push, p.retries, p.builders, p.pushers)
    ensures P.Seed(p, i) <==>
      !Excluded(images[i].status) && (images[i].parent == null || images[i].parent.status == Skipped)
  {
    TreesAt(images);
    StatusesAt(images);
  }

  /** The names in the FROM lines form no cycle. */
  ghost predicate Acyclic(images: seq<Image>, rank: seq<nat>) {
    && |rank| == |images|
    && forall i, j :: 0 <= i < |images| && 0 <= j < |images| && images[i].parentName == images[j].canonicalName ==>
         rank[j] < rank[i]
  }

  lemma FoundIsSound(images: seq<Image>, rank: seq<nat>)
    requires ParentsFound(images) && Acyclic(images, rank)
    ensures Sound(images, rank) && Linked(TreesOf(images))
  {
    FoundIsLinked(images);
    TreesAt(images);
    forall i | 0 <= i < |images| && images[i].parent != null
      ensures images[i].parent.id < |images| && rank[images[i].parent.id] < rank[i]
    {
      ParentLink(images, images[i]);
    }
  }

  lemma PlanIsValid(images: seq<Image>, rank: seq<nat>, req: Request,
                    push: bool, retries: nat, builders: nat, pushers: nat)
    requires Sound(images, rank) && Linked(TreesOf(images)) && 1 <= builders && 1 <= pushers
    requires forall i :: 0 <= i < |images| ==> images[i].status == Expected(TreesOf(images), rank, req, i)
    ensures LinksInside(images) && Numbered(images)
    ensures var p := PlanOf(images, push, retries, builders, pushers);
      && P.ValidPlan(p) && |p.filtered| == |images|
      && P.Start(p).build == P.Queue(P.Seeds(p, |images|), |P.Seeds(p, |images|)|)
      && p == PlanOf(images, p.push, p.retries, p.builders, p.pushers)
  {
    StatusesAt(images);
    FilteredPlanIsValid(TreesOf(images), rank, req, StatusesOf(images), PlanOf(images, push, retries, builders, pushers));
  }

  lemma Nth(images: seq<Image>, rank: seq<nat>, i: nat)
    requires Sound(images, rank) && i < |images|
    ensures Inside(images, images[i]) && images[i].id == i
  {
  }

  /** The names and statuses that a report is made from. */
  ghost function EntriesOf(images: seq<Image>): (es: seq<Entry>)
    reads images`status
    ensures |es| == |images| && forall i :: 0 <= i < |images| ==> es[i] == Entry(images[i].name, images[i].status)
  {
    if images == [] then []
    else EntriesOf(images[..|images| - 1]) + [Entry(images[|images| - 1].name, images[|images| - 1].status)]
  }

  lemma CollectedNone(allowed: set<string>)
    ensures Collected(EntriesOf([]), allowed) == NOTHING
  {
  }

  lemma CollectedNext(images: seq<Image>, i: nat, allowed: set<string>)
    requires i < |images|
    ensures Collected(EntriesOf(images[..i + 1]), allowed)
         == Add(Collected(EntriesOf(images[..i]), allowed), Entry(images[i].name, images[i].status), allowed)
  {
    assert images[..i + 1][..i] == images[..i];
    var es := EntriesOf(images[..i + 1]);
    assert es[..|es| - 1] == EntriesOf(images[..i]);
  }

  class KollaWorker {
    var images: seq<Image>
    var imageStatusesBad: map<string, Status>
    var imageStatusesGood: map<string, Status>
    var imageStatusesUnmatched: map<string, Status>
    var imageStatusesSkipped: map<string, Status>
    var imageStatusesUnbuildable: map<string, Status>
    var imageStatusesAllowedToFail: map<string, Status>

    /** The images are built from the Dockerfiles found: name, canonical name and parent name of each. */
    constructor (dockerfiles: seq<(string, string, string)>)
      ensures |images| == |dockerfiles| && Numbered(images) && Unlinked(images) && Untouched(images) && fresh(images)
      ensures Dictionaries().Empty()
      ensures forall i :: 0 <= i < |images| ==>
        (images[i].name, images[i].canonicalName, images[i].parentName) == dockerfiles[i]
    {
      images := [];
      imageStatusesBad, imageStatusesGood, imageStatusesUnmatched := map[], map[], map[];
      imageStatusesSkipped, imageStatusesUnbuildable, imageStatusesAllowedToFail := map[], map[], map[];
      new;
      for i := 0 to |dockerfiles|
        invariant Dictionaries().Empty()
        invariant |images| == i && Numbered(images) && Unlinked(images) && Untouched(images) && fresh(images)
        invariant forall j :: 0 <= j < i ==>
          (images[j].name, images[j].canonicalName, images[j].parentName) == dockerfiles[j]
      {
        var (name, canonicalName, parentName) := dockerfiles[i];
        var image := new Image(name, canonicalName, parentName, i);
        images := images + [image];
      }
    }

    /** The inner loop of `find_parents`: all images that name `parent` become its children. */
    method LinkChildren(vals: seq<Image>, parent: Image)
      requires parent in vals && DistinctNames(vals) && parent.children == []
      modifies parent`children, vals`parent
      ensures parent.children == NamingParent(vals, parent.canonicalName)
      ensures forall b <- vals :: b.parent == if b.parentName == parent.canonicalName then parent else old(b.parent)
    {
      for j := 0 to |vals|
        invariant parent.children == NamingParent(vals[..j], parent.canonicalName)
        invariant forall b :: 0 <= b < j ==>
          vals[b].parent == if vals[b].parentName == parent.canonicalName then parent else old(vals[b].parent)
        invariant forall b :: j <= b < |vals| ==> vals[b].parent == old(vals[b].parent)
      {
        assert vals[..j + 1][..j] == vals[..j];
        var image := vals[j];
        if image.parentName == parent.canonicalName {
          parent.children := parent.children + [image];
          image.parent := parent;
        }
      }
      assert vals[..|vals|] == vals;
    }

    /** The dictionary of `find_parents`: canonical names to images, the last of equal names winning. */
    method SortImages() returns (vals: seq<Image>)
      ensures vals == Registered(images) && DistinctNames(vals) && forall v <- vals :: v in images
    {
      vals := [];
      for i := 0 to |images|
        invariant vals == Registered(images[..i])
      {
        assert images[..i + 1][..i] == images[..i];
        vals := Register(vals, images[i]);
      }
      assert images[..|images|] == images;
      RegisteredFacts(images);
    }

    /** One pass of the outer loop of `find_parents`. */
    method LinkNext(vals: seq<Image>, k: nat)
      requires k < |vals| && DistinctNames(vals) && LinkedUpTo(vals, k)
      modifies vals`parent, vals`children
      ensures LinkedUpTo(vals, k + 1)
    {
      assert vals[..k + 1][..k] == vals[..k];
      assert vals[k] in vals;
      LinkChildren(vals, vals[k]);
    }

    /** `find_parents`. */
    method FindParents()
      requires Numbered(images) && Unlinked(images)
      modifies images`parent, images`children
      ensures ParentsFound(images)
    {
      hide *;
      var vals := SortImages();
      FindingStart(images, vals);
      for k := 0 to |vals|
        invariant Finding(images, vals, k)
      {
        FindingMeans(images, vals, k);
        LinkNext(vals, k);
        FindingAgain(images, vals, k + 1);
      }
      FindingEnd(images, vals);
    }

    // -------------------------------------------------------------- filter_images

    /** `image.status = value`. */
    method SetStatus(image: Image, value: Status)
      requires Numbered(images) && Inside(images, image)
      modifies image`status
      ensures image.status == value
      ensures StatusesOf(images) == old(StatusesOf(images))[image.id := value]
    {
      StatusesAt(images);
      image.status := value;
      StatusesAt(images);
    }

    /** The `while` loop of the unbuildable pass: stop at the first ancestor that is unbuildable, and mark it. */
    method CheckAncestors(image: Image, req: Request, ghost rank: seq<nat>, ghost n: nat) returns (build: bool)
      requires Sound(images, rank) && Inside(images, image) && image.name !in req.unbuildable
      requires Marking(TreesOf(images), rank, req, StatusesOf(images), n)
      modifies images`status
      ensures Marking(TreesOf(images), rank, req, StatusesOf(images), n)
      ensures build <==> !Doomed(TreesOf(images), rank, req, image.id)
    {
      hide *;
      ghost var f := TreesOf(images);
      At(images, rank, image);
      build := true;
      var ancestor: Image := image;
      while ancestor.parent != null
        invariant Inside(images, ancestor) && ancestor.id < |images|
        invariant unchanged(images`status) && build
        invariant ancestor.name !in req.unbuildable
        invariant Doomed(f, rank, req, image.id) <==> Doomed(f, rank, req, ancestor.id)
        decreases rank[ancestor.id]
      {
        At(images, rank, ancestor);
        DoomedStep(f, rank, req, ancestor.id);
        ancestor := ancestor.parent;
        At(images, rank, ancestor);
        if ancestor.name in req.unbuildable || ancestor.status == Unbuildable {
          MarkingDoomed(f, rank, req, StatusesOf(images), n, ancestor.id);
          build := false;
          SetStatus(ancestor, Unbuildable);
          return;
        }
      }
      At(images, rank, ancestor);
      DoomedStep(f, rank, req, ancestor.id);
    }

    /** One image of the unbuildable pass. */
    method MarkImage(i: nat, req: Request, ghost rank: seq<nat>)
      requires Sound(images, rank) && i < |images|
      requires Marking(TreesOf(images), rank, req, StatusesOf(images), i)
      modifies images`status
      ensures Marking(TreesOf(images), rank, req, StatusesOf(images), i + 1)
    {
      hide *;
      ghost var f := TreesOf(images);
      Nth(images, rank, i);
      var image := images[i];
      At(images, rank, image);
      DoomedStep(f, rank, req, i);
      var build := image.name !in req.unbuildable;
      if build {
        build := CheckAncestors(image, req, rank, i);
      }
      MarkingNext(f, rank, req, StatusesOf(images), i);
      if !build {
        SetStatus(image, Unbuildable);
      }
    }

    /** The first pass of `filter_images`: listed images and all their descendants become unbuildable. */
    method MarkUnbuildable(req: Request, ghost rank: seq<nat>)
      requires Sound(images, rank)
      requires Marking(TreesOf(images), rank, req, StatusesOf(images), 0)
      modifies images`status
      ensures Marking(TreesOf(images), rank, req, StatusesOf(images), |images|)
    {
      for i := 0 to |images|
        invariant Marking(TreesOf(images), rank, req, StatusesOf(images), i)
      {
        MarkImage(i, req, rank);
      }
    }

    /** The inner `while` loop of the matching pass: the parents of a matched image are matched too. */
    method MatchAncestors(image: Image, req: Request, ghost rank: seq<nat>, ghost n: nat)
      requires Sound(images, rank) && Inside(images, image) && image.status == Matched
      requires Matching(TreesOf(images), rank, req, StatusesOf(images), n)
      requires ClosedBut(TreesOf(images), StatusesOf(images), image.id)
      modifies images`status
      ensures image.status == Matched
      ensures Matching(TreesOf(images), rank, req, StatusesOf(images), n)
      ensures ClosedBut(TreesOf(images), StatusesOf(images), -1)
    {
      hide *;
      ghost var f := TreesOf(images);
      var ancestor: Image := image;
      At(images, rank, image);
      while ancestor.parent != null && ancestor.parent.status != Matched
        invariant Inside(images, ancestor) && ancestor.id < |images| && ancestor.status == Matched && image.status == Matched
        invariant Matching(f, rank, req, StatusesOf(images), n)
        invariant ClosedBut(f, StatusesOf(images), ancestor.id)
        decreases rank[ancestor.id]
      {
        At(images, rank, ancestor);
        MatchingParent(f, rank, req, StatusesOf(images), n, ancestor.id);
        ancestor := ancestor.parent;
        SetStatus(ancestor, Matched);
      }
      At(images, rank, ancestor);
      if ancestor.parent != null {
        At(images, rank, ancestor.parent);
      }
      ClosedEnd(f, StatusesOf(images), ancestor.id);
    }
  
    /** One image of the matching pass. */
    method MatchImage(i: nat, req: Request, wanted: string -> bool, ghost rank: seq<nat>)
      requires Sound(images, rank) && i < |images| && req.wanted == Some(wanted)
      requires Matching(TreesOf(images), rank, req, StatusesOf(images), i)
      requires ClosedBut(TreesOf(images), StatusesOf(images), -1)
      modifies images`status
      ensures Matching(TreesOf(images), rank, req, StatusesOf(images), i + 1)
      ensures ClosedBut(TreesOf(images), StatusesOf(images), -1)
    {
      hide *;
      ghost var f := TreesOf(images);
      Nth(images, rank, i);
      var image := images[i];
      At(images, rank, image);
      if image.status != Matched && image.status != Unbuildable {
        if wanted(image.name) {
          MatchingWanted(f, rank, req, StatusesOf(images), i, i);
          SetStatus(image, Matched);
          MatchAncestors(image, req, rank, i);
        } else {
          MatchingOther(f, rank, req, StatusesOf(images), i, i);
          SetStatus(image, Unmatched);
        }
        At(images, rank, image);
      }
      MatchingNext(f, rank, req, StatusesOf(images), i);
    }

    /** The second pass of `filter_images`. */
    method MatchImages(req: Request, ghost rank: seq<nat>)
      requires Sound(images, rank)
      requires Marking(TreesOf(images), rank, req, StatusesOf(images), |images|)
      modifies images`status
      ensures Skipping(TreesOf(images), rank, req, StatusesOf(images), 0)
    {
      hide *;
      ghost var f := TreesOf(images);
      Form(images, rank);
      match req.wanted
      case Some(wanted) =>
        MatchingStart(f, rank, req, StatusesOf(images));
        for i := 0 to |images|
          invariant Matching(f, rank, req, StatusesOf(images), i)
          invariant ClosedBut(f, StatusesOf(images), -1)
        {
          MatchImage(i, req, wanted, rank);
        }
        MatchingDone(f, rank, req, StatusesOf(images));
      case None =>
        SelectingAllStart(f, rank, req, StatusesOf(images));
        for i := 0 to |images|
          invariant SelectingAll(f, rank, req, StatusesOf(images), i)
        {
          Nth(images, rank, i);
          var image := images[i];
          At(images, rank, image);
          SelectingAllNext(f, rank, req, StatusesOf(images), i);
          if image.status != Unbuildable {
            SetStatus(image, Matched);
          }
        }
        SelectingAllDone(f, rank, req, StatusesOf(images));
    }
  
    /** The third pass of `filter_images`. */
    method SkipImages(req: Request, ghost rank: seq<nat>)
      requires Sound(images, rank)
      requires Skipping(TreesOf(images), rank, req, StatusesOf(images), 0)
      modifies images`status
      ensures Skipping(TreesOf(images), rank, req, StatusesOf(images), |images|)
    {
      hide *;
      ghost var f := TreesOf(images);
      Form(images, rank);
      for i := 0 to |images|
        invariant Skipping(f, rank, req, StatusesOf(images), i)
      {
        Nth(images, rank, i);
        var image := images[i];
        At(images, rank, image);
        SkippingNext(f, rank, req, StatusesOf(images), i);
        if image.status == Matched {
          if req.cached.Some? && image.canonicalName in req.cached.value {
            SetStatus(image, Skipped);
          } else if req.skipParents && image.children != [] {
            SetStatus(image, Skipped);
          }
        }
      }
    }

    /** `filter_images`: the status of every image is what the declarative specification asks for. */
    method FilterImages(req: Request, ghost rank: seq<nat>)
      requires Sound(images, rank) && Untouched(images)
      modifies images`status
      ensures forall i :: 0 <= i < |images| ==> images[i].status == Expected(TreesOf(images), rank, req, i)
      ensures forall i :: 0 <= i < |images| ==> Filtered(TreesOf(images), rank, req, i, images[i].status)
    {
      hide *;
      Form(images, rank);
      forall i | 0 <= i < |images| ensures Filtered(TreesOf(images), rank, req, i, Expected(TreesOf(images), rank, req, i)) {
        ExpectedFiltered(TreesOf(images), rank, req, i);
      }
      FilteringStart(images, rank, req);
      if req.unbuildable != {} {
        MarkUnbuildable(req, rank);
      }
      MatchImages(req, rank);
      SkipImages(req, rank);
      FilteringEnd(images, rank, req);
    }
  
    // -------------------------------------------------------------- build_queue

    /** `build_queue`: exactly the build tasks that the scheduler starts with. */
    method BuildQueue(ghost p: P.Plan) returns (tasks: seq<P.Task>)
      requires Numbered(images) && LinksInside(images)
      requires p == PlanOf(images, p.push, p.retries, p.builders, p.pushers)
      ensures tasks == P.Seeds(p, |images|)
    {
      hide LinksInside, Numbered, PlanOf, P.Seed;
      tasks := [];
      for i := 0 to |images|
        invariant tasks == P.Seeds(p, i)
      {
        SeedAt(images, p, i);
        var image := images[i];
        if image.status == Unmatched || image.status == Skipped || image.status == Unbuildable {
          continue;
        }
        if image.parent == null || image.parent.status == Skipped {
          tasks := tasks + [P.Build(i)];
        }
      }
    }

    /**
     * Linking, filtering and seeding as the main program calls them: the objects become a valid
     * plan, and the queue is the build queue of its start state.
     */
    method Prepare(req: Request, ghost rank: seq<nat>, push: bool, retries: nat, builders: nat, pushers: nat)
      returns (tasks: seq<P.Task>)
      requires Numbered(images) && Unlinked(images) && Untouched(images) && Acyclic(images, rank) && 1 <= builders && 1 <= pushers
      modifies images
      ensures ParentsFound(images) && Sound(images, rank)
      ensures forall i :: 0 <= i < |images| ==> images[i].status == Expected(TreesOf(images), rank, req, i)
      ensures var p := PlanOf(images, push, retries, builders, pushers);
        P.ValidPlan(p) && P.Start(p).build == P.Queue(tasks, |tasks|)
    {
      hide *;
      FindParents();
      FoundIsSound(images, rank);
      FilterImages(req, rank);
      ghost var p := PlanOf(images, push, retries, builders, pushers);
      PlanIsValid(images, rank, req, push, retries, builders, pushers);
      tasks := BuildQueue(p);
    }
  
    // -------------------------------------------------------------- get_image_statuses

    function Dictionaries(): Report
      reads this
    {
      Report(imageStatusesBad, imageStatusesGood, imageStatusesUnmatched,
             imageStatusesSkipped, imageStatusesUnbuildable, imageStatusesAllowedToFail)
    }

    /** One image in the loop of `get_image_statuses`. */
    method Record(image: Image, allowed: set<string>)
      modifies this`imageStatusesBad, this`imageStatusesGood, this`imageStatusesUnmatched,
               this`imageStatusesSkipped, this`imageStatusesUnbuildable, this`imageStatusesAllowedToFail
      ensures Dictionaries() == Add(old(Dictionaries()), Entry(image.name, image.status), allowed)
    {
      if image.status == Built {
        imageStatusesGood := imageStatusesGood[image.name := image.status];
      } else if image.status == Unmatched {
        imageStatusesUnmatched := imageStatusesUnmatched[image.name := image.status];
      } else if image.status == Skipped {
        imageStatusesSkipped := imageStatusesSkipped[image.name := image.status];
      } else if image.status == Unbuildable {
        imageStatusesUnbuildable := imageStatusesUnbuildable[image.name := image.status];
      } else if image.name in allowed {
        imageStatusesAllowedToFail := imageStatusesAllowedToFail[image.name := image.status];
      } else {
        imageStatusesBad := imageStatusesBad[image.name := image.status];
      }
    }

    /** `get_image_statuses`: computed once; later calls return the same dictionaries whatever the statuses are then. */
    method GetImageStatuses(allowed: set<string>) returns (report: Report)
      modifies this`imageStatusesBad, this`imageStatusesGood, this`imageStatusesUnmatched,
               this`imageStatusesSkipped, this`imageStatusesUnbuildable, this`imageStatusesAllowedToFail
      ensures report == Dictionaries()
      ensures old(Dictionaries()).Empty() ==> report == Collected(EntriesOf(images), allowed)
      ensures old(Dictionaries()).Empty() ==> Tells(report, EntriesOf(images), allowed)
      ensures !old(Dictionaries()).Empty() ==> report == old(Dictionaries())
    {
      hide Tells, Collected, EntriesOf, NamesRight, StatusesRight, Add;
      if imageStatusesBad != map[] || imageStatusesGood != map[] || imageStatusesUnmatched != map[]
         || imageStatusesSkipped != map[] || imageStatusesUnbuildable != map[] || imageStatusesAllowedToFail != map[] {
        return Dictionaries();
      }
      CollectedNone(allowed);
      CollectedTells(EntriesOf(images), allowed);
      for i := 0 to |images|
        invariant Dictionaries() == Collected(EntriesOf(images[..i]), allowed)
      {
        hide *;
        CollectedNext(images, i, allowed);
        Record(images[i], allowed);
      }
      assert images[..|images|] == images;
      return Dictionaries();
    }

    /**
     * Two calls in a row: the cached answer is what recomputing it would give.  With no images
     * there is nothing to cache, and the recomputation gives the empty report again.
     */
    method ReportTwice(allowed: set<string>) returns (first: Report, second: Report)
      requires Dictionaries().Empty()
      modifies this`imageStatusesBad, this`imageStatusesGood, this`imageStatusesUnmatched,
               this`imageStatusesSkipped, this`imageStatusesUnbuildable, this`imageStatusesAllowedToFail
      ensures first == second == Collected(EntriesOf(images), allowed)
      ensures ExitCode(Some(second)) == 0 <==> forall e <- EntriesOf(images) :: Acceptable(e, allowed)
    {
      hide Tells, Collected, EntriesOf, NamesRight, StatusesRight, Add, ExitCode, Acceptable;
      first := GetImageStatuses(allowed);
      second := GetImageStatuses(allowed);
      ExitCodeIff(EntriesOf(images), allowed);
    }
  }
}
