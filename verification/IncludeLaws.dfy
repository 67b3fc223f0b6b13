/**
 Loading walks the include graph: every file that can be reached and read is loaded,
 once, and nothing else; every directive is kept once; what is asked for again is
 reported as often as it is.
 */
module IncludeLaws {
  import opened IncludeGraph

  // ------------------------------------------------------------------ what a walk keeps

  /** The files are the readable ones among the visited, each once. */
  ghost predicate Accounted(w: World, l: Progress) {
    && (forall f :: f in l.files <==> f in l.visited && f in w.files)
    && (forall i, j :: 0 <= i < j < |l.files| ==> l.files[i] != l.files[j])
  }

  /** Whatever was visited on the way from `l` to `r` has had all it asks for visited. */
  ghost predicate Closes(w: World, l: Progress, r: Progress) {
    forall f, g :: f in r.visited && f !in l.visited && g in AskedBy(w, f) ==> g in r.visited
  }

  ghost predicate AllReachable(w: World, root: string, files: set<string>) {
    forall f :: f in files ==> Reachable(w, root, f)
  }

  function AsNat(b: bool): nat {
    if b then 1 else 0
  }

  /** How often a directive that is not an include occurs in a file. */
  function IdCount(items: seq<Item>, id: int): nat {
    if items == [] then 0 else AsNat(items[0] == Plain(id)) + IdCount(items[1..], id)
  }

  function AllIdCount(w: World, files: seq<string>, id: int): nat {
    if files == [] then 0
    else
      var f := files[|files| - 1];
      AllIdCount(w, files[..|files| - 1], id) + if f in w.files then IdCount(w.files[f], id) else 0
  }

  /** How often files ask for a file. */
  function AskCount(w: World, files: seq<string>, file: string): nat {
    if files == [] then 0
    else AskCount(w, files[..|files| - 1], file) + multiset(AskedBy(w, files[|files| - 1]))[file]
  }

  /** How often a file is reported as included again. */
  function Reports(diags: seq<Diag>, file: string): nat {
    if diags == [] then 0
    else
      var d := diags[|diags| - 1];
      Reports(diags[..|diags| - 1], file) + AsNat((d.Circular? || d.Overmatched?) && d.file == file)
  }

  /** Directive `id` is kept once for each time the files loaded, or what is being loaded (`n` times), hold it. */
  ghost predicate KeepsId(w: World, l: Progress, r: Progress, id: int, n: nat) {
    multiset(r.directives)[id] + AllIdCount(w, l.files, id) == multiset(l.directives)[id] + AllIdCount(w, r.files, id) + n
  }

  /** Each time file `file` is asked for it is visited or reported. */
  ghost predicate KeepsAsked(w: World, l: Progress, r: Progress, file: string, n: nat) {
    Reports(r.diags, file) + AsNat(file in r.visited) + AskCount(w, l.files, file)
    == Reports(l.diags, file) + AsNat(file in l.visited) + AskCount(w, r.files, file) + n
  }

  /** What holds between two points of a walk, seen from a directive and a file. */
  ghost predicate Walked(w: World, l: Progress, r: Progress, asked: seq<string>, id: int, n: nat, file: string) {
    && (Accounted(w, l) ==> Accounted(w, r))
    && Closes(w, l, r) && (forall g :: g in asked ==> g in r.visited)
    && KeepsId(w, l, r, id, n) && KeepsAsked(w, l, r, file, multiset(asked)[file])
  }

  lemma {:induction false} WalkedOn(w: World, l: Progress, m: Progress, r: Progress,
                                    asked: seq<string>, asked': seq<string>, id: int, n: nat, n': nat, file: string)
    requires Walked(w, l, m, asked, id, n, file) && Walked(w, m, r, asked', id, n', file) && l.visited <= m.visited <= r.visited
    ensures Walked(w, l, r, asked + asked', id, n + n', file)
  {
    assert multiset(asked + asked')[file] == multiset(asked)[file] + multiset(asked')[file];
  }

  lemma {:induction false} OpenedWalk(w: World, l: Progress, f: string, id: int, file: string)
    requires f !in l.visited && f in w.files
    ensures var m := Opened(Visited(l, f), f);
            && (Accounted(w, l) ==> Accounted(w, m))
            && AllIdCount(w, m.files, id) == AllIdCount(w, l.files, id) + IdCount(w.files[f], id)
            && AskCount(w, m.files, file) == AskCount(w, l.files, file) + multiset(AskedBy(w, f))[file]
  {
    var m := Opened(Visited(l, f), f);
    assert m.files[..|l.files|] == l.files;
    if Accounted(w, l) {
      forall i, j | 0 <= i < j < |m.files| ensures m.files[i] != m.files[j] {
        assert m.files[i] in l.files;
      }
    }
  }

  lemma {:induction false} NotedWalk(l: Progress, d: Diag, file: string)
    ensures Reports(Noted(l, d).diags, file) == Reports(l.diags, file) + AsNat((d.Circular? || d.Overmatched?) && d.file == file)
  {
    assert (l.diags + [d])[..|l.diags|] == l.diags;
  }

  lemma {:induction false} FileWalk(w: World, l: Progress, f: string, id: int, file: string)
    ensures Walked(w, l, FileLoaded(w, l, f), [f], id, 0, file)
    decreases Unseen(w, l), 0, 0
  {
    if f in l.visited {
      NotedWalk(l, Circular(f), file);
    } else if f !in w.files {
      NotedWalk(Visited(l, f), Unreadable(f), file);
    } else {
      var m := Opened(Visited(l, f), f);
      VisitingShrinks(w, l.visited, m.visited);
      ItemsWalk(w, m, w.files[f], w.dir(f), id, file);
      OpenedWalk(w, l, f, id, file);
      FileWalkJoins(w, l, m, ItemsLoaded(w, m, w.files[f], w.dir(f)), f, id, file);
    }
  }

  lemma {:induction false} FileWalkJoins(w: World, l: Progress, m: Progress, r: Progress, f: string, id: int, file: string)
    requires f !in l.visited && f in w.files && m == Opened(Visited(l, f), f) && m.visited <= r.visited
    requires Accounted(w, l) ==> Accounted(w, m)
    requires AllIdCount(w, m.files, id) == AllIdCount(w, l.files, id) + IdCount(w.files[f], id)
    requires AskCount(w, m.files, file) == AskCount(w, l.files, file) + multiset(AskedBy(w, f))[file]
    requires Walked(w, m, r, AskedBy(w, f), id, IdCount(w.files[f], id), file)
    ensures Walked(w, l, r, [f], id, 0, file)
  {
    assert multiset([f])[file] == AsNat(f == file);
  }

  lemma {:induction false} ItemsWalk(w: World, l: Progress, items: seq<Item>, baseDir: string, id: int, file: string)
    ensures Walked(w, l, ItemsLoaded(w, l, items, baseDir), Asked(w, items, baseDir), id, IdCount(items, id), file)
    decreases Unseen(w, l), 3, |items|
  {
    if items != [] {
      var rest := items[1..];
      var m := ItemLoaded(w, l, items[0], baseDir);
      ItemWalk(w, l, items[0], baseDir, id, file);
      VisitingShrinks(w, l.visited, m.visited);
      ItemsWalk(w, m, rest, baseDir, id, file);
      WalkedOn(w, l, m, ItemsLoaded(w, m, rest, baseDir), AskedIn(w, items[0], baseDir), Asked(w, rest, baseDir),
               id, AsNat(items[0] == Plain(id)), IdCount(rest, id), file);
    }
  }

  lemma {:induction false} ItemWalk(w: World, l: Progress, item: Item, baseDir: string, id: int, file: string)
    ensures Walked(w, l, ItemLoaded(w, l, item, baseDir), AskedIn(w, item, baseDir), id, AsNat(item == Plain(id)), file)
    decreases Unseen(w, l), 2, 0
  {
    if item.Plain? {
    } else {
      var target := Resolve(w, item.path, baseDir);
      if target.One? {
        FileWalk(w, l, target.file, id, file);
      } else if target.Many? {
        MatchesWalk(w, l, target.files, id, file);
      } else {
        NotedWalk(l, Skipped(target), file);
      }
    }
  }

  lemma {:induction false} MatchesWalk(w: World, l: Progress, files: seq<string>, id: int, file: string)
    ensures Walked(w, l, MatchesLoaded(w, l, files), files, id, 0, file)
    decreases Unseen(w, l), 1, |files| + 1
  {
    if files != [] {
      var f, rest := files[0], files[1..];
      var m := MatchLoaded(w, l, f);
      MatchWalk(w, l, f, id, file);
      VisitingShrinks(w, l.visited, m.visited);
      MatchesWalk(w, m, rest, id, file);
      WalkedOn(w, l, m, MatchesLoaded(w, m, rest), [f], rest, id, 0, 0, file);
      assert [f] + rest == files;
    }
  }

  lemma {:induction false} MatchWalk(w: World, l: Progress, f: string, id: int, file: string)
    ensures Walked(w, l, MatchLoaded(w, l, f), [f], id, 0, file)
    decreases Unseen(w, l), 1, 0
  {
    if f in l.visited {
      NotedWalk(l, Overmatched(f), file);
    } else {
      FileWalk(w, l, f, id, file);
    }
  }

  // ------------------------------------------------------------------ nothing else is visited

  lemma {:induction false} FileReaches(w: World, l: Progress, file: string, root: string)
    requires AllReachable(w, root, l.visited) && Reachable(w, root, file)
    ensures AllReachable(w, root, FileLoaded(w, l, file).visited)
    decreases Unseen(w, l), 0, 0
  {
    if file !in l.visited && file in w.files {
      VisitingShrinks(w, l.visited, Visited(l, file).visited);
      forall g | g in AskedBy(w, file) ensures Reachable(w, root, g) {
        AskedIsReachable(w, root, file, g);
      }
      ItemsReach(w, Opened(Visited(l, file), file), w.files[file], w.dir(file), root);
    }
  }

  lemma {:induction false} ItemsReach(w: World, l: Progress, items: seq<Item>, baseDir: string, root: string)
    requires AllReachable(w, root, l.visited) && forall g :: g in Asked(w, items, baseDir) ==> Reachable(w, root, g)
    ensures AllReachable(w, root, ItemsLoaded(w, l, items, baseDir).visited)
    decreases Unseen(w, l), 3, |items|
  {
    if items != [] {
      var rest := items[1..];
      assert forall g :: g in Asked(w, rest, baseDir) ==> g in Asked(w, items, baseDir);
      assert forall g :: g in AskedIn(w, items[0], baseDir) ==> g in Asked(w, items, baseDir);
      ItemReaches(w, l, items[0], baseDir, root);
      VisitingShrinks(w, l.visited, ItemLoaded(w, l, items[0], baseDir).visited);
      ItemsReach(w, ItemLoaded(w, l, items[0], baseDir), rest, baseDir, root);
    }
  }

  lemma {:induction false} ItemReaches(w: World, l: Progress, item: Item, baseDir: string, root: string)
    requires AllReachable(w, root, l.visited) && forall g :: g in AskedIn(w, item, baseDir) ==> Reachable(w, root, g)
    ensures AllReachable(w, root, ItemLoaded(w, l, item, baseDir).visited)
    decreases Unseen(w, l), 2, 0
  {
    if item.Include? {
      var target := Resolve(w, item.path, baseDir);
      if target.One? {
        assert target.file in FilesOf(target);
        FileReaches(w, l, target.file, root);
      } else if target.Many? {
        MatchesReach(w, l, target.files, root);
      }
    }
  }

  lemma {:induction false} MatchesReach(w: World, l: Progress, files: seq<string>, root: string)
    requires AllReachable(w, root, l.visited) && forall g :: g in files ==> Reachable(w, root, g)
    ensures AllReachable(w, root, MatchesLoaded(w, l, files).visited)
    decreases Unseen(w, l), 1, |files| + 1
  {
    if files != [] {
      var m := MatchLoaded(w, l, files[0]);
      if files[0] !in l.visited {
        FileReaches(w, l, files[0], root);
      }
      VisitingShrinks(w, l.visited, m.visited);
      MatchesReach(w, m, files[1..], root);
    }
  }

  // ------------------------------------------------------------------ loading from a root

  const NOTHING: Progress := Progress({}, [], [], [])

  /** A file is loaded exactly when it can be read and reached from the root, and then once. */
  lemma {:induction false} LoadsWhatIsReachable(w: World, root: string)
    ensures var r := FileLoaded(w, NOTHING, root);
            && (forall f :: f in r.files <==> f in w.files && Reachable(w, root, f))
            && (forall i, j :: 0 <= i < j < |r.files| ==> r.files[i] != r.files[j])
  {
    var r := FileLoaded(w, NOTHING, root);
    FileWalk(w, NOTHING, root, 0, root);
    RootIsReachable(w, root);
    FileReaches(w, NOTHING, root, root);
    assert root in [root];
    forall f | f in w.files && Reachable(w, root, f) ensures f in r.files {
      var way: seq<string> :| Way(w, way) && way[0] == root && way[|way| - 1] == f;
      ClosedContainsWays(w, r.visited, way);
    }
  }

  /** Every directive of every loaded file that is not an include is kept as often as the files hold it. */
  lemma {:induction false} EveryDirectiveIsKept(w: World, root: string, id: int)
    ensures var r := FileLoaded(w, NOTHING, root); multiset(r.directives)[id] == AllIdCount(w, r.files, id)
  {
    FileWalk(w, NOTHING, root, id, root);
  }

  lemma {:induction false} AskedBySome(w: World, files: seq<string>, f: string) returns (g: string)
    requires AskCount(w, files, f) > 0
    ensures g in files && f in AskedBy(w, g)
  {
    var last := files[|files| - 1];
    if f in AskedBy(w, last) {
      g := last;
    } else {
      g := AskedBySome(w, files[..|files| - 1], f);
    }
  }

  /**
   A file is reported as included again as often as the loaded files ask for it, less the
   one time it is visited; for the root the load itself is one more time. So there is no
   such report exactly when nothing is asked for twice.
   */
  lemma {:induction false} AskedAgainIsReported(w: World, root: string, f: string)
    ensures var r := FileLoaded(w, NOTHING, root);
            var asked := AskCount(w, r.files, f) + AsNat(f == root);
            && Reports(r.diags, f) == (if asked > 0 then asked - 1 else 0)
            && (f in r.visited <==> asked > 0)
  {
    var r := FileLoaded(w, NOTHING, root);
    FileWalk(w, NOTHING, root, 0, f);
    assert root in [root] && multiset([root])[f] == AsNat(f == root);
    if AskCount(w, r.files, f) > 0 {
      var g := AskedBySome(w, r.files, f);
      assert g in r.visited && f in AskedBy(w, g);
    }
  }

  lemma {:induction false} AsksTwice(w: World, items: seq<Item>, baseDir: string, file: string)
    requires |items| == 2 && items[0] == items[1] == Include(file) && Resolve(w, file, baseDir) == One(file)
    ensures Asked(w, items, baseDir) == [file, file]
  {
    assert AskedIn(w, items[0], baseDir) == [file];
    assert Asked(w, items[1..], baseDir) == [file] + Asked(w, items[1..][1..], baseDir);
    assert items[1..][1..] == [];
  }

  /** Two includes of one file: the second is reported as a circular include although nothing is circular. */
  lemma {:induction false} TwiceIsCalledCircular(w: World, root: string, twice: string)
    requires root != twice && w.files.Keys == {root, twice} && w.files[twice] == []
    requires w.files[root] == [Include(twice), Include(twice)]
    requires Resolve(w, twice, w.dir(root)) == One(twice)
    ensures Circular(twice) in FileLoaded(w, NOTHING, root).diags
    ensures forall f, g :: g in AskedBy(w, f) ==> f == root && g == twice
  {
    var l := Opened(Visited(NOTHING, root), root);
    var items := w.files[root];
    assert items[1..] == [Include(twice)] && items[1..][1..] == [];
    AsksTwice(w, items, w.dir(root), twice);
    assert Asked(w, w.files[twice], w.dir(twice)) == [];
    var m := ItemLoaded(w, l, Include(twice), w.dir(root));
    assert m == FileLoaded(w, l, twice) == Opened(Visited(l, twice), twice);
    var n := ItemLoaded(w, m, Include(twice), w.dir(root));
    assert n == FileLoaded(w, m, twice) == Noted(m, Circular(twice));
    assert ItemsLoaded(w, m, items[1..], w.dir(root)) == n;
  }
}
