/** The images and the worker that prepares the build: objects whose methods update statuses and links in place. */
module Images {
  import opened Statuses
  import opened Forest
  import Protocol

  class Image {
    const name: string
    const canonicalName: string
    const parentName: string
    ghost const id: nat          // position in the list of images
    var status: Status
    var parent: Image?
    var children: seq<Image>

    constructor (name: string, canonicalName: string, parentName: string, ghost id: nat)
      ensures this.name == name && this.canonicalName == canonicalName && this.parentName == parentName && this.id == id
      ensures status == Unprocessed && parent == null && children == []
    {
      this.name, this.canonicalName, this.parentName, this.id := name, canonicalName, parentName, id;
      status, parent, children := Unprocessed, null, [];
    }
  }

  // ---------------------------------------------------------------- snapshots of the heap

  ghost predicate Numbered(images: seq<Image>) {
    forall i :: 0 <= i < |images| ==> images[i].id == i
  }

  ghost function StatusesOf(images: seq<Image>): (r: seq<Status>)
    reads images`status
    ensures |r| == |images|
  {
    if images == [] then []
    else StatusesOf(images[..|images| - 1]) + [images[|images| - 1].status]
  }

  ghost predicate Inside(images: seq<Image>, x: Image) { x.id < |images| && images[x.id] == x }

  /** All links lead to images of the list. */
  ghost predicate LinksInside(images: seq<Image>)
    reads images`parent, images`children
  {
    forall i :: 0 <= i < |images| ==>
      && (images[i].parent != null ==> Inside(images, images[i].parent))
      && (forall c <- images[i].children :: Inside(images, c))
  }

  ghost function ParentId(x: Image): Option<nat>
    reads x`parent
  {
    if x.parent == null then None else Some(x.parent.id)
  }

  ghost function Ids(xs: seq<Image>): (r: seq<nat>)
    ensures |r| == |xs| && forall i :: 0 <= i < |xs| ==> r[i] == xs[i].id
  {
    seq(|xs|, i requires 0 <= i < |xs| => xs[i].id)
  }

  /** The forest that the objects form. */
  ghost function TreesOf(images: seq<Image>): (f: Trees)
    reads images`parent, images`children
    ensures |f.names| == |f.canonical| == |f.parents| == |f.children| == |images|
  {
    if images == [] then Trees([], [], [], [])
    else
      var n := |images| - 1;
      var f := TreesOf(images[..n]);
      Trees(f.names + [images[n].name], f.canonical + [images[n].canonicalName],
            f.parents + [ParentId(images[n])], f.children + [Ids(images[n].children)])
  }

  lemma {:induction false} StatusesAt(images: seq<Image>)
    ensures forall i :: 0 <= i < |images| ==> StatusesOf(images)[i] == images[i].status
  {
    if images != [] {
      StatusesAt(images[..|images| - 1]);
    }
  }

  lemma {:induction false} TreesAt(images: seq<Image>)
    ensures var f := TreesOf(images);
      forall i :: 0 <= i < |images| ==>
        && f.names[i] == images[i].name && f.canonical[i] == images[i].canonicalName
        && f.parents[i] == ParentId(images[i]) && f.children[i] == Ids(images[i].children)
  {
    if images != [] {
      TreesAt(images[..|images| - 1]);
    }
  }

  // ---------------------------------------------------------------- the dictionary of find_parents

  /** `sort_images[image.canonical_name] = image`: the values of the dictionary, in its order. */
  function Register(vals: seq<Image>, image: Image): seq<Image> {
    if vals == [] then [image]
    else if vals[0].canonicalName == image.canonicalName then [image] + vals[1..]
    else [vals[0]] + Register(vals[1..], image)
  }

  function Registered(images: seq<Image>): seq<Image> {
    if images == [] then [] else Register(Registered(images[..|images| - 1]), images[|images| - 1])
  }

  predicate DistinctNames(vals: seq<Image>) {
    forall i, j :: 0 <= i < j < |vals| ==> vals[i].canonicalName != vals[j].canonicalName
  }

  lemma {:induction false} RegisterFacts(vals: seq<Image>, image: Image)
    requires DistinctNames(vals)
    ensures var r := Register(vals, image);
      && DistinctNames(r)
      && (forall v <- r :: v == image || v in vals)
      && image in r
      && (forall v <- vals :: v.canonicalName != image.canonicalName ==> v in r)
  {
    if vals != [] && vals[0].canonicalName != image.canonicalName {
      RegisterFacts(vals[1..], image);
      var r := Register(vals[1..], image);
      forall j | 0 <= j < |r| ensures vals[0].canonicalName != r[j].canonicalName { assert r[j] in r; }
    }
  }

  lemma RegisteredStep(images: seq<Image>)
    requires images != []
    ensures Registered(images) == Register(Registered(images[..|images| - 1]), images[|images| - 1])
  {
  }

  /** The registered images are images of the list, with different names. */
  lemma {:induction false} RegisteredFacts(images: seq<Image>)
    ensures DistinctNames(Registered(images))
    ensures forall v <- Registered(images) :: v in images
  {
    if images != [] {
      hide *;
      var n := |images| - 1;
      RegisteredStep(images);
      RegisteredFacts(images[..n]);
      RegisterFacts(Registered(images[..n]), images[n]);
      assert images == images[..n] + [images[n]];
    }
  }

  /** Of images with the same name the last one is kept. */
  lemma {:induction false} LastIsRegistered(images: seq<Image>, i: nat)
    requires i < |images| && forall j :: i < j < |images| ==> images[j].canonicalName != images[i].canonicalName
    ensures images[i] in Registered(images)
  {
    hide *;
    var n := |images| - 1;
    RegisteredStep(images);
    RegisteredFacts(images[..n]);
    RegisterFacts(Registered(images[..n]), images[n]);
    if i < n {
      LastIsRegistered(images[..n], i);
    }
  }

  /** The image of `vals` called `c`, if there is one. */
  function Named(vals: seq<Image>, c: string): (r: Image?)
    ensures r == null ==> forall v <- vals :: v.canonicalName != c
    ensures r != null ==> r in vals && r.canonicalName == c
  {
    if vals == [] then null
    else if vals[|vals| - 1].canonicalName == c then vals[|vals| - 1]
    else Named(vals[..|vals| - 1], c)
  }

  /** The images of `vals` whose Dockerfile names `c` as parent, in order. */
  function NamingParent(vals: seq<Image>, c: string): seq<Image> {
    if vals == [] then []
    else NamingParent(vals[..|vals| - 1], c)
         + (if vals[|vals| - 1].parentName == c then [vals[|vals| - 1]] else [])
  }

  lemma {:induction false} NamingParentFacts(vals: seq<Image>, c: string)
    requires DistinctNames(vals)
    ensures var r := NamingParent(vals, c);
      && (forall v :: v in r <==> v in vals && v.parentName == c)
      && (forall i, j :: 0 <= i < j < |r| ==> r[i] != r[j])
  {
    if vals != [] {
      var n := |vals| - 1;
      NamingParentFacts(vals[..n], c);
      assert forall v <- vals[..n] :: v.canonicalName != vals[n].canonicalName;
      assert vals == vals[..n] + [vals[n]];
    }
  }

  /** `picked` are the images of `vals` at the increasing positions `at`. */
  ghost predicate InOrder(vals: seq<Image>, picked: seq<Image>, at: seq<nat>) {
    && |at| == |picked|
    && (forall i, j :: 0 <= i < j < |at| ==> at[i] < at[j])
    && (forall i :: 0 <= i < |at| ==> at[i] < |vals| && picked[i] == vals[at[i]])
  }

  lemma InOrderSnoc(vals: seq<Image>, v: Image, picked: seq<Image>, at: seq<nat>)
    requires InOrder(vals, picked, at)
    ensures InOrder(vals + [v], picked, at) && InOrder(vals + [v], picked + [v], at + [|vals|])
  {
    forall i | 0 <= i < |at| ensures (vals + [v])[at[i]] == vals[at[i]] {
    }
  }

  lemma NamingParentSnoc(vals: seq<Image>, v: Image, c: string)
    ensures NamingParent(vals + [v], c) == if v.parentName == c then NamingParent(vals, c) + [v] else NamingParent(vals, c)
  {
    assert (vals + [v])[..|vals|] == vals;
    assert NamingParent(vals, c) + [] == NamingParent(vals, c);
  }

  /** They come in the order of the list. */
  lemma {:induction false} NamingParentInOrder(vals: seq<Image>, c: string) returns (at: seq<nat>)
    ensures InOrder(vals, NamingParent(vals, c), at)
  {
    at := [];
    if vals != [] {
      hide NamingParent, InOrder;
      var n := |vals| - 1;
      at := NamingParentInOrder(vals[..n], c);
      assert vals == vals[..n] + [vals[n]];
      NamingParentSnoc(vals[..n], vals[n], c);
      InOrderSnoc(vals[..n], vals[n], NamingParent(vals[..n], c), at);
      if vals[n].parentName == c {
        at := at + [n];
      }
    }
  }

  // ---------------------------------------------------------------- the order of the dictionary

  /** A known name keeps its place, a new one comes last. */
  lemma {:induction false} RegisterNames(vals: seq<Image>, image: Image)
    ensures var r := Register(vals, image);
      && |vals| <= |r| <= |vals| + 1
      && (forall k :: 0 <= k < |vals| ==> r[k].canonicalName == vals[k].canonicalName)
      && (|r| == |vals| <==> exists k :: 0 <= k < |vals| && vals[k].canonicalName == image.canonicalName)
      && (|r| > |vals| ==> r[|vals|] == image)
  {
    if vals != [] && vals[0].canonicalName != image.canonicalName {
      RegisterNames(vals[1..], image);
      if k :| 0 <= k < |vals| && vals[k].canonicalName == image.canonicalName {
        assert vals[1..][k - 1] == vals[k];
      }
    }
  }

  /** Every name of the list is the name of a registered image. */
  lemma {:induction false} NameIsRegistered(images: seq<Image>, i: nat)
    requires i < |images|
    ensures exists k :: 0 <= k < |Registered(images)| && Registered(images)[k].canonicalName == images[i].canonicalName
  {
    hide *;
    var n := |images| - 1;
    RegisteredStep(images);
    var before := Registered(images[..n]);
    RegisterNames(before, images[n]);
    if i < n {
      NameIsRegistered(images[..n], i);
      var k :| 0 <= k < |before| && before[k].canonicalName == images[..n][i].canonicalName;
      assert Registered(images)[k].canonicalName == images[i].canonicalName;
    } else if |Registered(images)| > |before| {
      assert Registered(images)[|before|].canonicalName == images[i].canonicalName;
    } else {
      var k :| 0 <= k < |before| && before[k].canonicalName == images[n].canonicalName;
      assert Registered(images)[k].canonicalName == images[i].canonicalName;
    }
  }

  /** The registered images come in the order in which their names are first met in the list. */
  lemma {:induction false} RegisteredInOrder(images: seq<Image>, a: nat, b: nat)
    requires a < b < |Registered(images)|
    ensures exists i :: 0 <= i < |images| && images[i].canonicalName == Registered(images)[a].canonicalName
              && forall j :: 0 <= j <= i ==> images[j].canonicalName != Registered(images)[b].canonicalName
  {
    hide *;
    var r := Registered(images);
    var n := |images| - 1;
    RegisteredNone();
    RegisteredStep(images);
    var before := Registered(images[..n]);
    RegisterNames(before, images[n]);
    if b < |before| {
      RegisteredInOrder(images[..n], a, b);
      var i :| 0 <= i < n && images[..n][i].canonicalName == before[a].canonicalName
              && forall j :: 0 <= j <= i ==> images[..n][j].canonicalName != before[b].canonicalName;
      assert images[i].canonicalName == r[a].canonicalName;
      assert forall j :: 0 <= j <= i ==> images[j] == images[..n][j];
    } else {
      RegisteredFacts(images[..n]);
      assert before[a] in images[..n];
      var i :| 0 <= i < n && images[i] == before[a];
      forall j | 0 <= j <= i ensures images[j].canonicalName != r[b].canonicalName {
        NameIsRegistered(images[..n], j);
        assert images[..n][j] == images[j];
      }
      assert images[i].canonicalName == r[a].canonicalName;
    }
  }

  lemma RegisteredNone()
    ensures Registered([]) == []
  {
  }
}
