/** The engine-level bookkeeping: the list of playing assets and the frame
    loop's sort-process-sweep pass over it, the engine generation query, and
    the lookup chain that turns a context id into the file to load. Assets
    are compared by identity, so any type with equality stands for them; the
    z-index, the playing flag and the per-frame processing are parameters. */
module Engine {
  import opened Results
  import Assets

  // ---------------------------------------------------------------------------
  // The playing list.

  /** `addPlayingAsset`: an asset already in the list leaves it unchanged;
      a new one is appended. */
  function AddPlaying<A(==)>(l: seq<A>, a: A): (r: seq<A>)
    ensures a in r
    ensures a in l ==> r == l
    ensures a !in l ==> r == l + [a]
  {
    if a in l then l else l + [a]
  }

  predicate NoDuplicates<A(==)>(l: seq<A>) {
    forall i, j :: 0 <= i < j < |l| ==> l[i] != l[j]
  }

  /** Adding is idempotent, adds exactly the one asset, and keeps the list
      free of duplicates. */
  lemma AddPlayingIsSetInsertion<A>(l: seq<A>, a: A)
    ensures AddPlaying(AddPlaying(l, a), a) == AddPlaying(l, a)
    ensures forall x :: x in AddPlaying(l, a) <==> x in l || x == a
    ensures NoDuplicates(l) ==> NoDuplicates(AddPlaying(l, a))
  {
  }

  // ---------------------------------------------------------------------------
  // Sorting by descending z-index.

  /** Descending z: a front-most asset (largest z) comes first. */
  predicate SortedByZ<A>(z: A -> int, l: seq<A>) {
    forall i, j :: 0 <= i < j < |l| ==> z(l[i]) >= z(l[j])
  }

  /** `a` placed before the first element with a smaller or equal z. */
  function Insert<A>(z: A -> int, a: A, l: seq<A>): (r: seq<A>)
    decreases |l|
  {
    if |l| == 0 || z(a) >= z(l[0]) then [a] + l
    else [l[0]] + Insert(z, a, l[1..])
  }

  lemma {:induction false} InsertPermutes<A>(z: A -> int, a: A, l: seq<A>)
    ensures multiset(Insert(z, a, l)) == multiset([a]) + multiset(l)
    decreases |l|
  {
    if |l| > 0 && z(a) < z(l[0]) {
      InsertPermutes(z, a, l[1..]);
      assert l == [l[0]] + l[1..];
    }
  }

  lemma {:induction false} InsertSorted<A>(z: A -> int, a: A, l: seq<A>)
    requires SortedByZ(z, l)
    ensures SortedByZ(z, Insert(z, a, l))
    ensures |Insert(z, a, l)| == |l| + 1
    ensures |l| > 0 ==> z(Insert(z, a, l)[0]) == if z(a) >= z(l[0]) then z(a) else z(l[0])
    decreases |l|
  {
    if |l| > 0 && z(a) < z(l[0]) {
      InsertSorted(z, a, l[1..]);
      var rest := Insert(z, a, l[1..]);
      forall j | 0 < j < |rest| + 1
        ensures z(l[0]) >= z(([l[0]] + rest)[j])
      {
        InsertPermutes(z, a, l[1..]);
        if |l| > 1 {
          assert z(rest[0]) <= z(l[0]);
        }
        assert z(rest[j - 1]) <= z(rest[0]);
      }
    }
  }

  /** The frame loop's `Common::sort` by descending z-index, as insertion
      sort. `Common::sort` promises no order among equal z-indices; this
      definition fixes one, and the properties below hold for any. */
  /** The sort returns the same assets, front-most first. */
  function SortByZ<A>(z: A -> int, l: seq<A>): (r: seq<A>)
    ensures SortedByZ(z, r)
    ensures multiset(r) == multiset(l)
    decreases |l|
  {
    if |l| == 0 then []
    else
      var rest := SortByZ(z, l[1..]);
      InsertSorted(z, l[0], rest);
      InsertPermutes(z, l[0], rest);
      assert l == [l[0]] + l[1..];
      Insert(z, l[0], rest)
  }

  // ---------------------------------------------------------------------------
  // Processing and sweeping.

  /** Every asset after its `process` call. */
  function ProcessAll<A>(process: A -> A, l: seq<A>): (r: seq<A>)
    ensures |r| == |l| && forall i :: 0 <= i < |l| ==> r[i] == process(l[i])
  {
    seq(|l|, i requires 0 <= i < |l| => process(l[i]))
  }

  /** The assets still playing, in their order. */
  function Playing<A>(playing: A -> bool, l: seq<A>): (r: seq<A>)
    decreases |l|
  {
    if |l| == 0 then []
    else (if playing(l[0]) then [l[0]] else []) + Playing(playing, l[1..])
  }

  /** Keeping the playing assets distributes over concatenation, so the
      survivors keep their relative order. */
  lemma {:induction false} PlayingAppend<A>(playing: A -> bool, l1: seq<A>, l2: seq<A>)
    ensures Playing(playing, l1 + l2) == Playing(playing, l1) + Playing(playing, l2)
    decreases |l1|
  {
    if |l1| > 0 {
      PlayingAppend(playing, l1[1..], l2);
      var h: seq<A> := if playing(l1[0]) then [l1[0]] else [];
      assert (l1 + l2)[0] == l1[0];
      assert (l1 + l2)[1..] == l1[1..] + l2;
      assert h + (Playing(playing, l1[1..]) + Playing(playing, l2)) == (h + Playing(playing, l1[1..])) + Playing(playing, l2);
    } else {
      assert l1 + l2 == l2;
    }
  }

  /** Exactly the playing assets survive, each as often as it was there. */
  lemma {:induction false} PlayingMembers<A>(playing: A -> bool, l: seq<A>)
    ensures forall x :: x in Playing(playing, l) ==> x in l && playing(x)
    ensures forall x :: x in l && playing(x) ==> x in Playing(playing, l)
    ensures |Playing(playing, l)| <= |l|
    decreases |l|
  {
    if |l| > 0 {
      PlayingMembers(playing, l[1..]);
      assert l == [l[0]] + l[1..];
    }
  }

  /** The sweep loop after the sort: each asset is processed in place, and
      one that is no longer playing is erased, the iterator then standing on
      its successor. */
  method Sweep<A>(process: A -> A, playing: A -> bool, s: seq<A>) returns (l: seq<A>)
    ensures l == Playing(playing, ProcessAll(process, s))
  {
    l := s;
    var i := 0;
    ghost var k := 0;
    while i < |l|
      invariant 0 <= k <= |s|
      invariant l == Playing(playing, ProcessAll(process, s[..k])) + s[k..]
      invariant i == |Playing(playing, ProcessAll(process, s[..k]))|
      decreases |l| - i
    {
      var done := Playing(playing, ProcessAll(process, s[..k]));
      assert s[k..] == [s[k]] + s[k + 1..];
      assert l[i] == s[k] && l[..i] == done && l[i + 1..] == s[k + 1..];
      var a := process(l[i]);
      PlayingAppend(playing, ProcessAll(process, s[..k]), [a]);
      assert ProcessAll(process, s[..k + 1]) == ProcessAll(process, s[..k]) + [a];
      if !playing(a) {
        assert Playing(playing, [a]) == [];
        l := l[..i] + l[i + 1..];
        assert l == done + s[k + 1..];
      } else {
        assert Playing(playing, [a]) == [a];
        l := l[i := a];
        assert l == (done + [a]) + s[k + 1..];
        i := i + 1;
      }
      k := k + 1;
    }
    assert s[..k] == s;
  }

  /** One pass of the frame loop over the playing list. */
  method Frame<A>(z: A -> int, process: A -> A, playing: A -> bool, l: seq<A>) returns (r: seq<A>)
    ensures r == Playing(playing, ProcessAll(process, SortByZ(z, l)))
  {
    r := Sweep(process, playing, SortByZ(z, l));
  }

  /** After a frame every asset left is playing, and every asset of the
      list whose processing left it playing is still there. */
  lemma FrameKeepsPlaying<A>(z: A -> int, process: A -> A, playing: A -> bool, l: seq<A>)
    ensures forall x :: x in Playing(playing, ProcessAll(process, SortByZ(z, l))) ==> playing(x)
    ensures forall a :: a in l && playing(process(a)) ==>
      process(a) in Playing(playing, ProcessAll(process, SortByZ(z, l)))
  {
    var s := SortByZ(z, l);
    var t := ProcessAll(process, s);
    PlayingMembers(playing, t);
    forall a | a in l && playing(process(a))
      ensures process(a) in Playing(playing, t)
    {
      assert a in multiset(s);
      var i :| 0 <= i < |s| && s[i] == a;
      assert t[i] == process(a);
    }
  }

  /** When processing keeps every z-index, the survivors of a frame are
      still front-most first. */
  lemma FrameKeepsOrder<A>(z: A -> int, process: A -> A, playing: A -> bool, l: seq<A>)
    requires forall a :: z(process(a)) == z(a)
    ensures SortedByZ(z, Playing(playing, ProcessAll(process, SortByZ(z, l))))
  {
    var s := SortByZ(z, l);
    var t := ProcessAll(process, s);
    assert SortedByZ(z, t) by {
      forall i, j | 0 <= i < j < |t|
        ensures z(t[i]) >= z(t[j])
      {
        assert z(t[i]) == z(s[i]) && z(t[j]) == z(s[j]);
      }
    }
    PlayingSorted(z, playing, t);
  }

  /** With the default `process`, which leaves every asset as it is, a
      frame keeps exactly the assets that are playing, front-most first. */
  lemma DefaultProcessFrame(z: Assets.Clock -> int, l: seq<Assets.Clock>)
    ensures var r := Playing(Assets.IsPlaying, ProcessAll(Assets.Process, SortByZ(z, l)));
      && (forall x :: x in r <==> x in l && Assets.IsPlaying(x))
      && SortedByZ(z, r)
  {
    var s := SortByZ(z, l);
    assert ProcessAll(Assets.Process, s) == s;
    PlayingMembers(Assets.IsPlaying, s);
    forall x | x in s
      ensures x in l
    {
      assert x in multiset(s);
    }
    FrameKeepsPlaying(z, Assets.Process, Assets.IsPlaying, l);
    FrameKeepsOrder(z, Assets.Process, Assets.IsPlaying, l);
  }

  lemma {:induction false} PlayingSorted<A>(z: A -> int, playing: A -> bool, l: seq<A>)
    requires SortedByZ(z, l)
    ensures SortedByZ(z, Playing(playing, l))
    decreases |l|
  {
    if |l| > 0 {
      PlayingSorted(z, playing, l[1..]);
      PlayingMembers(playing, l[1..]);
      var rest := Playing(playing, l[1..]);
      forall x | x in rest
        ensures z(l[0]) >= z(x)
      {
        assert x in l[1..];
        var j :| 0 <= j < |l[1..]| && l[1..][j] == x;
        assert l[j + 1] == x;
      }
      forall i, j | 0 <= i < j < |Playing(playing, l)|
        ensures z(Playing(playing, l)[i]) >= z(Playing(playing, l)[j])
      {
        if playing(l[0]) && i == 0 {
          assert Playing(playing, l)[j] == rest[j - 1];
          assert rest[j - 1] in rest;
        }
      }
    }
  }

  // ---------------------------------------------------------------------------
  // Boot-derived queries.

  /** The fields of BOOT.STM that the engine consults here. */
  datatype SubfileDeclaration = SubfileDeclaration(fileId: nat, startOffset: nat)
  datatype FileDeclaration = FileDeclaration(name: string)
  datatype VersionInfo = VersionInfo(major: nat, minor: nat, revision: nat, text: string)
  datatype Boot = Boot(versionInfo: Option<VersionInfo>, subfiles: map<nat, SubfileDeclaration>,
                       files: map<nat, FileDeclaration>)

  /** `isFirstGenerationEngine`: fatal before BOOT.STM is read; the first
      generation is the one whose boot file carries no version
      information. */
  function IsFirstGeneration(boot: Option<Boot>): (r: Result<bool>)
    ensures boot.None? <==> r == Fail(BootNotLoaded)
    ensures r == Ok(true) <==> boot.Some? && boot.value.versionInfo.None?
    ensures r == Ok(false) <==> boot.Some? && boot.value.versionInfo.Some?
  {
    match boot
    case None => Fail(BootNotLoaded)
    case Some(b) => Ok(b.versionInfo.None?)
  }

  /** The offset of a context's data within its file. */
  const CONTEXT_START_OFFSET: nat := 16

  /** `id` names a context whose file is declared. */
  predicate Loadable(b: Boot, id: nat) {
    && id in b.subfiles
    && b.subfiles[id].startOffset == CONTEXT_START_OFFSET
    && b.subfiles[id].fileId in b.files
  }

  /** `loadContext` up to opening the file: the name of the file holding
      context `id`, or `None` (the null context) when the declaration is
      missing, is not a context, or names an undeclared file. Reading the
      context file is not part of this model. */
  function LoadContext(boot: Option<Boot>, id: nat): (r: Result<Option<string>>)
    ensures boot.None? <==> r == Fail(BootNotLoaded)
    ensures boot.Some? && id !in boot.value.subfiles ==> r == Ok(None)
    ensures boot.Some? && id in boot.value.subfiles && boot.value.subfiles[id].startOffset != CONTEXT_START_OFFSET ==>
      r == Ok(None)
    ensures boot.Some? ==> (r.Ok? && r.value.Some? <==> Loadable(boot.value, id))
    ensures r.Ok? && r.value.Some? ==> r.value.value == boot.value.files[boot.value.subfiles[id].fileId].name
  {
    match boot
    case None => Fail(BootNotLoaded)
    case Some(b) =>
      if id !in b.subfiles then Ok(None)
      else
        var sub := b.subfiles[id];
        if sub.startOffset != CONTEXT_START_OFFSET then Ok(None)
        else if sub.fileId !in b.files then Ok(None)
        else Ok(Some(b.files[sub.fileId].name))
  }

  /** Declaring more subfiles and files never makes a loadable context
      unloadable or changes its file. */
  lemma LoadContextMonotone(b: Boot, b': Boot, id: nat)
    requires b.subfiles.Keys <= b'.subfiles.Keys && b.files.Keys <= b'.files.Keys
    requires forall k :: k in b.subfiles ==> b'.subfiles[k] == b.subfiles[k]
    requires forall k :: k in b.files ==> b'.files[k] == b.files[k]
    requires LoadContext(Some(b), id).Ok? && LoadContext(Some(b), id).value.Some?
    ensures LoadContext(Some(b'), id) == LoadContext(Some(b), id)
  {
  }
}
