/** Removal of an installed payload: exact deletion of journaled files that resumes after a crash. */
module Purge {
  import opened Wrappers

  type Path = seq<string>
  type Digest = int

  /** What stands at a path that is not a directory. */
  datatype Entry = Regular(digest: Digest) | Link | Special

  /** Everything below the install root. */
  datatype Tree = Tree(files: map<Path, Entry>, dirs: set<Path>)

  /** The files the journal gives authority to remove, with their digests. */
  type Authority = map<Path, Digest>

  const Selector: Path := ["payload-selection.json"]

  predicate Below(d: Path, p: Path) {
    |d| < |p| && p[..|d|] == d
  }

  /** The directories that hold journaled files. */
  function OwnedDirs(owned: Authority): set<Path> {
    set p, n: nat | p in owned && 1 <= n < |p| :: p[..n]
  }

  /** A journaled path where something else stands now. */
  predicate Changed(t: Tree, owned: Authority, p: Path)
    requires p in owned
  {
    p in t.dirs || (p in t.files && t.files[p] != Regular(owned[p]))
  }

  predicate AnyChanged(t: Tree, owned: Authority) {
    exists p :: p in owned && Changed(t, owned, p)
  }

  /** Nothing but journaled files and their own directories stands at or below a directory. */
  ghost predicate Bare(t: Tree, owned: Authority, d: Path) {
    && d in OwnedDirs(owned) && d !in owned
    && (forall p :: p in t.files && Below(d, p) ==> p in owned)
    && (forall e :: e in t.dirs && Below(d, e) ==> e in OwnedDirs(owned) && e !in owned)
  }

  /** What is left when every journaled file and every directory it leaves bare is gone. */
  ghost function Final(t: Tree, owned: Authority): Tree {
    Tree(t.files - owned.Keys, set d | d in t.dirs && !Bare(t, owned, d))
  }

  const Nothing := Tree(map[], {})

  ghost predicate Purgeable(t: Tree, owned: Authority) {
    !AnyChanged(t, owned) && Final(t, owned) == Nothing
  }

  /** Said of paths alone: some journaled file lies further down. */
  ghost predicate Leads(owned: Authority, d: Path) {
    exists rest :: rest != [] && d + rest in owned
  }

  lemma LeadsIff(owned: Authority, d: Path)
    ensures d in OwnedDirs(owned) <==> d != [] && Leads(owned, d)
  {
    if d in OwnedDirs(owned) {
      var p, n :| p in owned && 1 <= n < |p| && d == p[..n];
      assert p == d + p[n..];
    }
    if d != [] && Leads(owned, d) {
      var rest :| rest != [] && d + rest in owned;
      var p := d + rest;
      assert p in owned && 1 <= |d| < |p| && p[..|d|] == d;
    }
  }

  lemma BelowIff(d: Path, p: Path)
    ensures Below(d, p) <==> exists rest :: rest != [] && p == d + rest
  {
    if Below(d, p) {
      assert p == d + p[|d|..];
    }
  }

  /** What a purge leaves: every file without a journal entry as it was, and every directory but those
      that lead to a journaled file and hold, however deep, only such files and such directories. */
  lemma FinalIs(t: Tree, owned: Authority, q: Path)
    ensures q in Final(t, owned).files <==> q in t.files && q !in owned
    ensures q in Final(t, owned).files ==> Final(t, owned).files[q] == t.files[q]
    ensures q in t.dirs && q !in Final(t, owned).dirs <==>
      && q in t.dirs && q != [] && q !in owned && Leads(owned, q)
      && forall rest :: rest != [] ==>
           && (q + rest in t.files ==> q + rest in owned)
           && (q + rest in t.dirs ==> q + rest !in owned && Leads(owned, q + rest))
  {
    LeadsIff(owned, q);
    forall rest | rest != [] ensures Below(q, q + rest) && (q + rest in OwnedDirs(owned) <==> Leads(owned, q + rest)) {
      BelowIff(q, q + rest);
      LeadsIff(owned, q + rest);
    }
    if q in t.dirs && forall rest :: rest != [] ==>
         && (q + rest in t.files ==> q + rest in owned)
         && (q + rest in t.dirs ==> q + rest !in owned && Leads(owned, q + rest)) {
      forall p | Below(q, p) ensures p in t.files ==> p in owned
        ensures p in t.dirs ==> p in OwnedDirs(owned) && p !in owned
      {
        BelowIff(q, p);
        var rest :| rest != [] && p == q + rest;
      }
    }
  }

  /** A tree of journaled files with their digests and of directories that lead to them can be purged. */
  lemma OwnTreeIsPurgeable(t: Tree, owned: Authority)
    requires t.files == map p | p in owned :: Regular(owned[p])
    requires forall d :: d in t.dirs ==> d != [] && d !in owned && Leads(owned, d)
    ensures Purgeable(t, owned)
  {
    forall d | d in t.dirs ensures d !in Final(t, owned).dirs {
      FinalIs(t, owned, d);
    }
  }

  // ---- what any part of a purge may have done

  ghost predicate Removes(t: Tree, u: Tree, owned: Authority) {
    && (forall p :: p in u.files ==> p in t.files && u.files[p] == t.files[p])
    && (forall p :: p in t.files && p !in u.files ==> p in owned && t.files[p] == Regular(owned[p]))
    && u.dirs <= t.dirs
    && (forall d :: d in t.dirs && d !in u.dirs ==> Bare(t, owned, d))
  }

  lemma BareStays(t: Tree, u: Tree, owned: Authority, d: Path)
    requires Removes(t, u, owned)
    ensures Bare(t, owned, d) <==> Bare(u, owned, d)
  {
    if Bare(u, owned, d) {
      forall p | p in t.files && Below(d, p) ensures p in owned {
        assert p !in u.files ==> p in owned;
      }
      forall e | e in t.dirs && Below(d, e) ensures e in OwnedDirs(owned) && e !in owned {
        assert e !in u.dirs ==> Bare(t, owned, e);
      }
    }
  }

  lemma RemovesTwice(t: Tree, u: Tree, v: Tree, owned: Authority)
    requires Removes(t, u, owned) && Removes(u, v, owned)
    ensures Removes(t, v, owned)
  {
    hide Bare;
    forall d | d in t.dirs && d !in v.dirs ensures Bare(t, owned, d) {
      BareStays(t, u, owned, d);
    }
  }

  /** A purge interrupted anywhere leaves the same result to reach, and the same verdict. */
  lemma InterruptionKeeps(t: Tree, u: Tree, owned: Authority)
    requires Removes(t, u, owned)
    ensures Final(t, owned) == Final(u, owned)
    ensures Purgeable(t, owned) <==> Purgeable(u, owned)
  {
    hide Bare;
    forall d ensures Bare(t, owned, d) <==> Bare(u, owned, d) {
      BareStays(t, u, owned, d);
    }
    assert t.files - owned.Keys == u.files - owned.Keys;
    assert Final(t, owned).dirs == Final(u, owned).dirs;
    ChangeStays(t, u, owned);
  }

  lemma ChangeStays(t: Tree, u: Tree, owned: Authority)
    requires Removes(t, u, owned)
    ensures AnyChanged(t, owned) <==> AnyChanged(u, owned)
  {
    if AnyChanged(t, owned) {
      var p :| p in owned && Changed(t, owned, p);
      assert Changed(u, owned, p);
    }
    if AnyChanged(u, owned) {
      var p :| p in owned && Changed(u, owned, p);
      assert Changed(t, owned, p);
    }
  }

  /** What a smaller authority allows, the whole one allows. */
  lemma RemovesMore(t: Tree, u: Tree, part: Authority, owned: Authority)
    requires Removes(t, u, part) && forall p :: p in part ==> p in owned && owned[p] == part[p]
    requires OwnedDirs(part) == {}
    ensures Removes(t, u, owned)
  {
  }

  // ---- the purge itself

  datatype End = Done | Refused | Crashed

  /** One deleted file: what stood there, and whether the selector still stood. */
  datatype Deletion = Deletion(path: Path, entry: Entry, selectorStood: bool)

  /** Every deletion took a journaled file with its journaled digest, and none but the selector's own
      happened while a journaled selector stood. */
  ghost predicate Lawful(log: seq<Deletion>, owned: Authority) {
    forall i :: 0 <= i < |log| ==> LawfulDeletion(log[i], owned)
  }

  ghost predicate LawfulDeletion(x: Deletion, owned: Authority) {
    && x.path in owned && x.entry == Regular(owned[x.path])
    && (x.path != Selector && Selector in owned ==> !x.selectorStood)
  }

  class Install {
    var files: map<Path, Entry>
    var dirs: set<Path>
    var journal: Option<Authority>
    /** How many more durable writes happen before a crash. */
    var writes: nat
    ghost var log: seq<Deletion>

    ghost function State(): Tree
      reads this
    {
      Tree(files, dirs)
    }

    constructor (tree: Tree, owned: Authority, writes: nat)
      ensures State() == tree && journal == Some(owned) && this.writes == writes && log == []
    {
      files, dirs, journal, log := tree.files, tree.dirs, Some(owned), [];
      this.writes := writes;
    }

    /** Which journaled files still stand, provided each is what it was. */
    method Inspect(owned: Authority) returns (matches: bool, remaining: set<Path>)
      ensures matches <==> !AnyChanged(State(), owned)
      ensures matches ==> remaining == files.Keys * owned.Keys
    {
      remaining := {};
      var todo := owned.Keys;
      while todo != {}
        invariant todo <= owned.Keys && remaining == files.Keys * (owned.Keys - todo)
        invariant forall p :: p in owned && p !in todo ==> !Changed(State(), owned, p)
        decreases |todo|
      {
        var p :| p in todo;
        if p in dirs || (p in files && files[p] != Regular(owned[p])) {
          assert Changed(State(), owned, p);
          return false, {};
        }
        if p in files {
          remaining := remaining + {p};
        }
        todo := todo - {p};
      }
      assert owned.Keys - todo == owned.Keys;
      return true, remaining;
    }

    method Unlink(p: Path, whole: Authority)
      requires writes > 0 && p in files && Lawful(log, whole)
      requires LawfulDeletion(Deletion(p, files[p], Selector in files), whole)
      modifies this`files, this`writes, this`log
      ensures files == old(files) - {p} && writes == old(writes) - 1 && Lawful(log, whole)
      ensures |files| == |old(files)| - 1
    {
      hide Lawful, LawfulDeletion;
      assert (files - {p}).Keys == files.Keys - {p};
      LawfulGrows(log, Deletion(p, files[p], Selector in files), whole);
      log := log + [Deletion(p, files[p], Selector in files)];
      files := files - {p};
      writes := writes - 1;
    }

    method UnlinkAll(owned: Authority, whole: Authority, remaining: set<Path>) returns (r: End)
      requires remaining == files.Keys * owned.Keys && !AnyChanged(State(), owned)
      requires forall p :: p in owned ==> p in whole && whole[p] == owned[p]
      requires Lawful(log, whole) && (Selector in whole && Selector in files ==> owned.Keys == {Selector})
      modifies this`files, this`writes, this`log
      ensures r != Refused && Removes(old(State()), State(), owned) && Lawful(log, whole)
      ensures r == Done ==> files == old(files) - owned.Keys
      ensures old(writes) + |files| == writes + |old(files)| && (r == Crashed ==> writes == 0)
    {
      hide Lawful, LawfulDeletion, Removes, AnyChanged, Changed;
      var todo := remaining;
      assert files == files - {};
      while todo != {}
        invariant todo <= remaining && files == old(files) - (remaining - todo) && Lawful(log, whole)
        invariant old(writes) + |files| == writes + |old(files)|
        decreases |todo|
      {
        var p :| p in todo;
        if writes == 0 {
          UnlinkedFiles(old(State()), owned, remaining - todo);
          return Crashed;
        }
        MatchedDeletion(old(State()), owned, whole, p, Selector in files);
        OneMoreUnlinked(old(files), remaining, todo, p);
        Unlink(p, whole);
        todo := todo - {p};
      }
      assert remaining - todo == remaining;
      UnlinkedFiles(old(State()), owned, remaining);
      AllUnlinked(old(files), owned);
      return Done;
    }

    method RemoveEmptyDirectories(owned: Authority) returns (r: End)
      requires files.Keys !! owned.Keys && dirs !! owned.Keys && files.Keys !! dirs
      modifies this`dirs, this`writes
      ensures Removes(old(State()), State(), owned)
      ensures r == Done ==> State() == Final(old(State()), owned)
      ensures r == Refused ==> files != map[] && OwnedDirs(owned) != {}
      ensures old(writes) + |dirs| == writes + |old(dirs)| && (r == Crashed ==> writes == 0)
    {
      hide Bare;
      var todo := OwnedDirs(owned);
      Unremoved(State(), owned);
      while todo != {}
        invariant todo <= OwnedDirs(owned) && Removes(old(State()), State(), owned)
        invariant old(writes) + |dirs| == writes + |old(dirs)|
        invariant forall d :: d in OwnedDirs(owned) && d !in todo && d in dirs ==> !Bare(old(State()), owned, d)
        decreases |todo|
      {
        Deepest(todo);
        var d :| d in todo && forall e :: e in todo ==> |e| <= |d|;
        if d in files && files[d] != Link {
          return Refused;
        }
        if d in dirs {
          EmptyIffBare(old(State()), State(), owned, todo, d);
          if (forall p :: p in files ==> !Below(d, p)) && (forall e :: e in dirs ==> !Below(d, e)) {
            if writes == 0 {
              return Crashed;
            }
            dirs := dirs - {d};
            writes := writes - 1;
          }
        }
        todo := todo - {d};
      }
      FinalReached(old(State()), State(), owned);
      return Done;
    }

    /** Remove the files of an authority and the directories they leave bare; nothing at all if one
        of them is no longer what it was. */
    method PurgeOwned(owned: Authority, whole: Authority) returns (r: End)
      requires files.Keys !! dirs
      requires forall p :: p in owned ==> p in whole && whole[p] == owned[p]
      requires Lawful(log, whole) && (Selector in whole && Selector in files ==> owned.Keys == {Selector})
      modifies this`files, this`dirs, this`writes, this`log
      ensures files.Keys !! dirs && Removes(old(State()), State(), owned) && Lawful(log, whole)
      ensures AnyChanged(old(State()), owned) ==> r == Refused && State() == old(State())
      ensures r == Done ==> State() == Final(old(State()), owned)
      ensures r == Refused ==>
        AnyChanged(old(State()), owned) || (Final(old(State()), owned).files != map[] && OwnedDirs(owned) != {})
      ensures old(writes) + |files| + |dirs| == writes + |old(files)| + |old(dirs)| && (r == Crashed ==> writes == 0)
    {
      hide Bare, Lawful, Removes, AnyChanged;
      var matches, remaining := Inspect(owned);
      if !matches {
        Unremoved(State(), owned);
        return Refused;
      }
      r := UnlinkAll(owned, whole, remaining);
      if r == Crashed {
        RemovedApart(old(State()), State(), owned);
        return;
      }
      ghost var unlinked := State();
      RemovedApart(old(State()), unlinked, owned);
      NoOwnedDirectory(old(State()), owned);
      InterruptionKeeps(old(State()), unlinked, owned);
      r := RemoveEmptyDirectories(owned);
      RemovesTwice(old(State()), unlinked, State(), owned);
      RemovedApart(old(State()), State(), owned);
      assert unlinked.files - owned.Keys == unlinked.files;
    }

    /** Remove the selector before any generation can become partially absent. */
    method DetachSelector(owned: Authority) returns (r: End)
      requires Selector in owned && files.Keys !! dirs && Lawful(log, owned)
      modifies this`files, this`dirs, this`writes, this`log
      ensures files.Keys !! dirs && Removes(old(State()), State(), owned) && Lawful(log, owned)
      ensures r == Done ==> Selector !in files
      ensures r == Refused ==> !Purgeable(old(State()), owned)
      ensures old(writes) + |files| + |dirs| == writes + |old(files)| + |old(dirs)| && (r == Crashed ==> writes == 0)
    {
      hide Bare, Lawful, Removes, AnyChanged, Purgeable, OwnedDirs;
      var part := map[Selector := owned[Selector]];
      SelectorAlone(part);
      SelectorRefused(State(), part, owned);
      r := PurgeOwned(part, owned);
      RemovesMore(old(State()), State(), part, owned);
    }

    /** Carry out the journal: the selector first, then everything; the journal goes last, and only
        when nothing is left. */
    method FinishCleanup() returns (r: End)
      requires journal.Some? && files.Keys !! dirs && Lawful(log, journal.value)
      modifies this
      ensures var owned := old(journal).value;
        && files.Keys !! dirs && Lawful(log, owned)
        && Removes(old(State()), State(), owned)
        && (r == Done <==> journal == None) && (r != Done ==> journal == old(journal))
        && (r == Done ==> State() == Nothing)
        && (r != Crashed ==> (r == Done <==> Purgeable(old(State()), owned)))
        && (old(writes) > |old(files)| + |old(dirs)| ==> r != Crashed)
    {
      hide Bare, Lawful, Removes, AnyChanged, Purgeable, OwnedDirs;
      var owned := journal.value;
      ghost var start := State();
      Unremoved(start, owned);
      if Selector in owned {
        r := DetachSelector(owned);
        if r != Done {
          return;
        }
      }
      ghost var middle := State();
      InterruptionKeeps(start, middle, owned);
      r := PurgeOwned(owned, owned);
      RemovesTwice(start, middle, State(), owned);
      PurgeVerdict(middle, owned);
      if r != Done {
        return;
      }
      if files.Keys + dirs != {} {
        assert State() != Nothing;
        return Refused;
      }
      assert files == map[];
      if writes == 0 {
        return Crashed;
      }
      writes := writes - 1;
      journal := None;
    }
  }

  lemma PurgeVerdict(t: Tree, owned: Authority)
    ensures Purgeable(t, owned) ==> Final(t, owned) == Nothing && !AnyChanged(t, owned)
    ensures Final(t, owned) == Nothing && !AnyChanged(t, owned) ==> Purgeable(t, owned)
    ensures AnyChanged(t, owned) || Final(t, owned).files != map[] ==> !Purgeable(t, owned)
  {
  }

  /** The selector stands directly below the root. */
  lemma SelectorAlone(part: Authority)
    requires part.Keys == {Selector}
    ensures OwnedDirs(part) == {}
  {
    assert |Selector| == 1;
  }

  lemma SelectorRefused(t: Tree, part: Authority, owned: Authority)
    requires forall p :: p in part ==> p in owned && owned[p] == part[p]
    ensures AnyChanged(t, part) ==> !Purgeable(t, owned)
  {
    if AnyChanged(t, part) {
      var p :| p in part && Changed(t, part, p);
      assert Changed(t, owned, p);
    }
  }

  lemma NoOwnedDirectory(t: Tree, owned: Authority)
    requires !AnyChanged(t, owned)
    ensures t.dirs !! owned.Keys
  {
    assert forall p :: p in owned ==> !Changed(t, owned, p);
  }

  lemma OnlyShrinks(t: Tree, u: Tree, owned: Authority)
    requires Removes(t, u, owned)
    ensures |u.files| <= |t.files| && |u.dirs| <= |t.dirs|
  {
    Fewer(u.files.Keys, t.files.Keys);
    Fewer(u.dirs, t.dirs);
  }

  lemma RemovedApart(t: Tree, u: Tree, owned: Authority)
    requires Removes(t, u, owned) && t.files.Keys !! t.dirs
    ensures u.files.Keys !! u.dirs && u.files.Keys <= t.files.Keys && u.dirs <= t.dirs
  {
  }

  lemma MatchedDeletion(t: Tree, owned: Authority, whole: Authority, p: Path, selectorStood: bool)
    requires !AnyChanged(t, owned) && p in owned && p in t.files && p in whole && whole[p] == owned[p]
    requires p != Selector && Selector in whole ==> !selectorStood
    ensures LawfulDeletion(Deletion(p, t.files[p], selectorStood), whole)
  {
    assert !Changed(t, owned, p);
  }

  lemma LawfulGrows(log: seq<Deletion>, x: Deletion, owned: Authority)
    requires Lawful(log, owned) && LawfulDeletion(x, owned)
    ensures Lawful(log + [x], owned)
  {
  }

  lemma AllUnlinked(files: map<Path, Entry>, owned: Authority)
    ensures files - (files.Keys * owned.Keys) == files - owned.Keys
  {
  }

  lemma OneMoreUnlinked(files: map<Path, Entry>, all: set<Path>, todo: set<Path>, p: Path)
    requires p in todo && todo <= all
    ensures files - (all - todo) - {p} == files - (all - (todo - {p}))
  {
  }

  lemma UnlinkedFiles(t: Tree, owned: Authority, gone: set<Path>)
    requires !AnyChanged(t, owned) && gone <= t.files.Keys * owned.Keys
    ensures Removes(t, Tree(t.files - gone, t.dirs), owned)
  {
    forall p | p in gone ensures t.files[p] == Regular(owned[p]) {
      assert !Changed(t, owned, p);
    }
  }

  lemma FinalReached(t: Tree, u: Tree, owned: Authority)
    requires t.files == u.files && t.files.Keys !! owned.Keys && Removes(t, u, owned)
    requires forall d :: d in OwnedDirs(owned) && d in u.dirs ==> !Bare(t, owned, d)
    ensures u == Final(t, owned)
  {
    assert t.files - owned.Keys == t.files;
    assert u.dirs == Final(t, owned).dirs;
  }

  lemma Unremoved(t: Tree, owned: Authority)
    ensures Removes(t, t, owned)
  {
  }

  lemma {:induction false} Deepest(ds: set<Path>)
    requires ds != {}
    ensures exists d :: d in ds && forall e :: e in ds ==> |e| <= |d|
    decreases ds
  {
    var x :| x in ds;
    if ds == {x} {
      assert forall e :: e in ds ==> |e| <= |x|;
    } else {
      Deepest(ds - {x});
      var d :| d in ds - {x} && forall e :: e in ds - {x} ==> |e| <= |d|;
      var m := if |x| > |d| then x else d;
      assert m in ds && forall e :: e in ds ==> |e| <= |m|;
    }
  }

  /** With every deeper bare directory gone, a directory is empty exactly when it is bare. */
  lemma EmptyIffBare(t: Tree, u: Tree, owned: Authority, todo: set<Path>, d: Path)
    requires t.files.Keys !! owned.Keys && t.dirs !! owned.Keys && t.files == u.files && Removes(t, u, owned)
    requires d in todo && d in u.dirs && todo <= OwnedDirs(owned) && forall e :: e in todo ==> |e| <= |d|
    requires forall e :: e in OwnedDirs(owned) && e !in todo && e in u.dirs ==> !Bare(t, owned, e)
    ensures Bare(t, owned, d) <==>
      (forall p :: p in u.files ==> !Below(d, p)) && (forall e :: e in u.dirs ==> !Below(d, e))
  {
    if Bare(t, owned, d) {
      forall e | e in u.dirs && Below(d, e) ensures false {
        BareBelow(t, owned, d, e);
      }
    } else if (forall p :: p in u.files ==> !Below(d, p)) && (forall e :: e in u.dirs ==> !Below(d, e)) {
      forall e | e in t.dirs && Below(d, e) ensures e in OwnedDirs(owned) && e !in owned {
        assert Bare(t, owned, e);
      }
    }
  }

  lemma BareBelow(t: Tree, owned: Authority, d: Path, e: Path)
    requires Bare(t, owned, d) && e in t.dirs && Below(d, e)
    ensures Bare(t, owned, e)
  {
    forall p | Below(e, p) ensures Below(d, p) {
      assert p[..|d|] == p[..|e|][..|d|];
    }
  }

  /** Run the purge again and again, each time with some number of writes before a crash, until one
      run ends by itself. */
  method Resume(install: Install, runs: seq<nat>) returns (r: End)
    requires install.journal.Some? && install.files.Keys !! install.dirs && Lawful(install.log, install.journal.value)
    modifies install
    ensures var owned := old(install.journal).value;
      && Lawful(install.log, owned) && Removes(old(install.State()), install.State(), owned)
      && (r == Done <==> install.journal == None)
      && (r == Done ==> install.State() == Nothing)
      && (r != Crashed ==> (r == Done <==> Purgeable(old(install.State()), owned)))
      && ((exists n :: 0 <= n < |runs| && runs[n] > |old(install.files)| + |old(install.dirs)|) ==> r != Crashed)
  {
    hide Lawful, Removes, Purgeable;
    ghost var start := install.State();
    ghost var owned := install.journal.value;
    Unremoved(start, owned);
    r := Crashed;
    var n := 0;
    while n < |runs| && r == Crashed
      invariant 0 <= n <= |runs|
      invariant r == Crashed ==> install.journal == Some(owned) && install.files.Keys !! install.dirs
      invariant Lawful(install.log, owned) && Removes(start, install.State(), owned)
      invariant r == Done <==> install.journal == None
      invariant r == Done ==> install.State() == Nothing
      invariant r != Crashed ==> (r == Done <==> Purgeable(start, owned))
      invariant r == Crashed ==> forall k :: 0 <= k < n ==> runs[k] <= |start.files| + |start.dirs|
    {
      ghost var before := install.State();
      InterruptionKeeps(start, before, owned);
      OnlyShrinks(start, before, owned);
      install.writes := runs[n];
      r := install.FinishCleanup();
      RemovesTwice(start, before, install.State(), owned);
      n := n + 1;
    }
  }
}
