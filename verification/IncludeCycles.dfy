/**
 Cycles of includes and what is reported of them: every cycle that can be reached is
 reported on one of its files, a file is reported exactly when it is asked for again,
 and so the reports tell cycles exactly where asking again takes a cycle.
 */
module IncludeCycles {
  import opened IncludeGraph
  import opened IncludeLaws

  // ------------------------------------------------------------------ ways

  lemma {:induction false} WayOn(w: World, a: string, b: string, c: string)
    requires Reachable(w, a, b) && Reachable(w, b, c)
    ensures Reachable(w, a, c)
  {
    var way: seq<string> :| Way(w, way) && way[0] == b && way[|way| - 1] == c;
    AlongWay(w, a, way, |way| - 1);
  }

  /** What can be reached from the first file of a way can be reached all along it. */
  lemma {:induction false} AlongWay(w: World, a: string, way: seq<string>, i: nat)
    requires Way(w, way) && Reachable(w, a, way[0]) && i < |way|
    ensures Reachable(w, a, way[i])
  {
    if i > 0 {
      AlongWay(w, a, way, i - 1);
      AskedIsReachable(w, a, way[i - 1], way[i]);
    }
  }

  // ------------------------------------------------------------------ cycles

  /** The file asks for one from which it can be reached again. */
  ghost predicate OnCycle(w: World, f: string) {
    exists g :: g in AskedBy(w, f) && Reachable(w, g, f)
  }

  /** Two files that lie on a common cycle, or are one. */
  ghost predicate Together(w: World, f: string, x: string) {
    Reachable(w, f, x) && Reachable(w, x, f)
  }

  /** The last file of a way but one asks for the last. */
  lemma {:induction false} BeforeTheEnd(w: World, f: string, a: string, x: string) returns (g: string)
    requires Reachable(w, a, x) && a != x && Reachable(w, f, a)
    ensures x in AskedBy(w, g) && Reachable(w, f, g)
  {
    var way: seq<string> :| Way(w, way) && way[0] == a && way[|way| - 1] == x;
    g := way[|way| - 2];
    AlongWay(w, f, way, |way| - 2);
  }

  /** Every file of a cycle is asked for by one of its files. */
  lemma {:induction false} AskedOnCycle(w: World, f: string, x: string) returns (g: string)
    requires OnCycle(w, f) && Together(w, f, x)
    ensures x in AskedBy(w, g) && Together(w, f, g)
  {
    RootIsReachable(w, f);
    if x != f {
      g := BeforeTheEnd(w, f, f, x);
    } else {
      var next :| next in AskedBy(w, f) && Reachable(w, next, f);
      if next == f {
        g := f;
      } else {
        AskedIsReachable(w, f, f, next);
        g := BeforeTheEnd(w, f, next, f);
      }
    }
    RootIsReachable(w, g);
    AskedIsReachable(w, g, g, x);
    WayOn(w, g, x, f);
  }

  /** The first file on the way to a cycle that lies on it, and who asks for it from outside. */
  lemma {:induction false} EntersCycle(w: World, f: string, way: seq<string>, i: nat) returns (k: nat)
    requires Way(w, way) && i < |way| && Together(w, f, way[i])
    ensures k <= i && Together(w, f, way[k]) && (k > 0 ==> !Together(w, f, way[k - 1]))
  {
    k := i;
    if i > 0 && Together(w, f, way[i - 1]) {
      k := EntersCycle(w, f, way, i - 1);
    }
  }

  // ------------------------------------------------------------------ who asks for a file

  /** A file that is loaded asks for `f`. */
  ghost predicate Asks(w: World, root: string, g: string, f: string) {
    Reachable(w, root, g) && f in AskedBy(w, g)
  }

  /** Asked for twice by one file, by two files, or once more after the load itself. */
  ghost predicate AskedAgain(w: World, root: string, f: string) {
    || (exists g :: Asks(w, root, g, f) && (f == root || multiset(AskedBy(w, g))[f] > 1))
    || (exists g, h :: g != h && Asks(w, root, g, f) && Asks(w, root, h, f))
  }

  lemma {:induction false} CountsOne(w: World, files: seq<string>, f: string, g: string)
    requires g in files
    ensures AskCount(w, files, f) >= multiset(AskedBy(w, g))[f]
  {
    var last := |files| - 1;
    if files[last] != g {
      assert files == files[..last] + [files[last]];
      CountsOne(w, files[..last], f, g);
    }
  }

  lemma {:induction false} CountsTwo(w: World, files: seq<string>, f: string, g: string, h: string)
    requires g in files && h in files && g != h
    ensures AskCount(w, files, f) >= multiset(AskedBy(w, g))[f] + multiset(AskedBy(w, h))[f]
  {
    var last := |files| - 1;
    var front := files[..last];
    assert files == front + [files[last]];
    if files[last] == g {
      CountsOne(w, front, f, h);
    } else if files[last] == h {
      CountsOne(w, front, f, g);
    } else {
      CountsTwo(w, front, f, g, h);
    }
  }

  /** More than one request comes from one file or from two. */
  lemma {:induction false} CountedTwice(w: World, files: seq<string>, f: string)
    requires AskCount(w, files, f) > 1 && forall i, j :: 0 <= i < j < |files| ==> files[i] != files[j]
    ensures || (exists g :: g in files && multiset(AskedBy(w, g))[f] > 1)
            || (exists g, h :: g != h && g in files && h in files && f in AskedBy(w, g) && f in AskedBy(w, h))
  {
    var last := |files| - 1;
    var front := files[..last];
    assert files[last] in files;
    assert forall g :: g in front ==> g in files;
    if multiset(AskedBy(w, files[last]))[f] == 1 {
      var g := AskedBySome(w, front, f);
      assert f in AskedBy(w, files[last]);
    } else if multiset(AskedBy(w, files[last]))[f] == 0 {
      CountedTwice(w, front, f);
    }
  }

  /** The files that were loaded, each once: those that ask for one are the files that can be reached. */
  ghost predicate Lists(w: World, root: string, files: seq<string>) {
    && (forall i, j :: 0 <= i < j < |files| ==> files[i] != files[j])
    && (forall g, f :: f in AskedBy(w, g) ==> (g in files <==> Reachable(w, root, g)))
  }

  lemma {:induction false} AskedAgainCounts(w: World, root: string, files: seq<string>, f: string)
    requires Lists(w, root, files) && AskedAgain(w, root, f)
    ensures AskCount(w, files, f) + AsNat(f == root) > 1
  {
    if g :| Asks(w, root, g, f) && (f == root || multiset(AskedBy(w, g))[f] > 1) {
      CountsOne(w, files, f, g);
    } else {
      var g, h :| g != h && Asks(w, root, g, f) && Asks(w, root, h, f);
      CountsTwo(w, files, f, g, h);
    }
  }

  lemma {:induction false} AgainByOne(w: World, root: string, g: string, f: string)
    requires Asks(w, root, g, f) && (f == root || multiset(AskedBy(w, g))[f] > 1)
    ensures AskedAgain(w, root, f)
  {
  }

  lemma {:induction false} AgainByTwo(w: World, root: string, g: string, h: string, f: string)
    requires g != h && Asks(w, root, g, f) && Asks(w, root, h, f)
    ensures AskedAgain(w, root, f)
  {
  }

  lemma {:induction false} CountedIsAskedAgain(w: World, root: string, files: seq<string>, f: string)
    requires Lists(w, root, files) && AskCount(w, files, f) + AsNat(f == root) > 1
    ensures AskedAgain(w, root, f)
  {
    if f == root {
      var g := AskedBySome(w, files, f);
      AgainByOne(w, root, g, f);
    } else {
      CountedTwice(w, files, f);
      if g :| g in files && multiset(AskedBy(w, g))[f] > 1 {
        assert f in AskedBy(w, g);
        AgainByOne(w, root, g, f);
      } else {
        var g, h :| g != h && g in files && h in files && f in AskedBy(w, g) && f in AskedBy(w, h);
        AgainByTwo(w, root, g, h, f);
      }
    }
  }

  /** A file is reported as included again exactly when the files that can be reached ask for it again. */
  lemma {:induction false} ReportedIff(w: World, root: string, f: string)
    ensures Reports(FileLoaded(w, NOTHING, root).diags, f) > 0 <==> AskedAgain(w, root, f)
  {
    var files := FileLoaded(w, NOTHING, root).files;
    AskedAgainIsReported(w, root, f);
    LoadsWhatIsReachable(w, root);
    assert Lists(w, root, files);
    if AskedAgain(w, root, f) {
      AskedAgainCounts(w, root, files, f);
    }
    if AskCount(w, files, f) + AsNat(f == root) > 1 {
      CountedIsAskedAgain(w, root, files, f);
    }
  }

  // ------------------------------------------------------------------ reports and cycles

  /** Some file of every cycle that can be reached is asked for again. */
  lemma {:induction false} CyclesAskAgain(w: World, root: string, f: string) returns (x: string)
    requires Reachable(w, root, f) && OnCycle(w, f)
    ensures Together(w, f, x) && AskedAgain(w, root, x)
  {
    var way: seq<string> :| Way(w, way) && way[0] == root && way[|way| - 1] == f;
    RootIsReachable(w, f);
    RootIsReachable(w, root);
    var k := EntersCycle(w, f, way, |way| - 1);
    x := way[k];
    var g := AskedOnCycle(w, f, x);
    WayOn(w, root, f, g);
    assert Asks(w, root, g, x);
    if k > 0 {
      AlongWay(w, root, way, k - 1);
      assert Asks(w, root, way[k - 1], x);
    }
  }

  /** Every cycle that can be reached is reported on one of its files. */
  lemma {:induction false} CyclesAreReported(w: World, root: string, f: string) returns (x: string)
    requires Reachable(w, root, f) && OnCycle(w, f)
    ensures Together(w, f, x) && Reports(FileLoaded(w, NOTHING, root).diags, x) > 0
  {
    x := CyclesAskAgain(w, root, f);
    ReportedIff(w, root, x);
  }

  ghost predicate Cyclic(w: World, root: string) {
    exists f :: Reachable(w, root, f) && OnCycle(w, f)
  }

  ghost predicate SomeReport(w: World, root: string) {
    exists f :: Reports(FileLoaded(w, NOTHING, root).diags, f) > 0
  }

  /** Loading reports some file exactly when there is a cycle, if and only if no file is asked for again without one. */
  lemma {:induction false} ReportMeansCycleIff(w: World, root: string)
    ensures (SomeReport(w, root) <==> Cyclic(w, root)) <==> ((exists f :: AskedAgain(w, root, f)) ==> Cyclic(w, root))
  {
    forall f ensures Reports(FileLoaded(w, NOTHING, root).diags, f) > 0 <==> AskedAgain(w, root, f) {
      ReportedIff(w, root, f);
    }
    if f :| Reachable(w, root, f) && OnCycle(w, f) {
      var x := CyclesAreReported(w, root, f);
    }
  }

  // ------------------------------------------------------------------ errors and warnings

  /** How often a file is reported as a circular include, which is an error. */
  function Circulars(diags: seq<Diag>, f: string): nat {
    if diags == [] then 0 else Circulars(diags[..|diags| - 1], f) + AsNat(diags[|diags| - 1] == Circular(f))
  }

  /** How often a file is reported as matched again, which is a warning. */
  function Overmatches(diags: seq<Diag>, f: string): nat {
    if diags == [] then 0 else Overmatches(diags[..|diags| - 1], f) + AsNat(diags[|diags| - 1] == Overmatched(f))
  }

  lemma {:induction false} ReportsAreOfTwoKinds(diags: seq<Diag>, f: string)
    ensures Reports(diags, f) == Circulars(diags, f) + Overmatches(diags, f)
  {
    if diags != [] {
      ReportsAreOfTwoKinds(diags[..|diags| - 1], f);
    }
  }

  /** Whether an include names the file itself. */
  function NamedIn(w: World, item: Item, baseDir: string, f: string): nat {
    AsNat(item.Include? && Resolve(w, item.path, baseDir) == One(f))
  }

  /** How often a pattern matches the file. */
  function MatchedIn(w: World, item: Item, baseDir: string, f: string): nat {
    if item.Include? && Resolve(w, item.path, baseDir).Many? then multiset(Resolve(w, item.path, baseDir).files)[f] else 0
  }

  function Named(w: World, items: seq<Item>, baseDir: string, f: string): nat {
    if items == [] then 0 else NamedIn(w, items[0], baseDir, f) + Named(w, items[1..], baseDir, f)
  }

  function Matched(w: World, items: seq<Item>, baseDir: string, f: string): nat {
    if items == [] then 0 else MatchedIn(w, items[0], baseDir, f) + Matched(w, items[1..], baseDir, f)
  }

  function NamedBy(w: World, g: string, f: string): nat {
    if g in w.files then Named(w, w.files[g], w.dir(g), f) else 0
  }

  function MatchedBy(w: World, g: string, f: string): nat {
    if g in w.files then Matched(w, w.files[g], w.dir(g), f) else 0
  }

  /** How often files name a file, or match it. */
  function NameCount(w: World, files: seq<string>, f: string): nat {
    if files == [] then 0 else NameCount(w, files[..|files| - 1], f) + NamedBy(w, files[|files| - 1], f)
  }

  function MatchCount(w: World, files: seq<string>, f: string): nat {
    if files == [] then 0 else MatchCount(w, files[..|files| - 1], f) + MatchedBy(w, files[|files| - 1], f)
  }

  lemma {:induction false} AskedByNameOrMatch(w: World, items: seq<Item>, baseDir: string, f: string)
    ensures multiset(Asked(w, items, baseDir))[f] == Named(w, items, baseDir, f) + Matched(w, items, baseDir, f)
  {
    if items != [] {
      AskedByNameOrMatch(w, items[1..], baseDir, f);
      assert multiset(AskedIn(w, items[0], baseDir))[f] == NamedIn(w, items[0], baseDir, f) + MatchedIn(w, items[0], baseDir, f);
    }
  }

  lemma {:induction false} CountedByNameOrMatch(w: World, files: seq<string>, f: string)
    ensures AskCount(w, files, f) == NameCount(w, files, f) + MatchCount(w, files, f)
  {
    if files != [] {
      var g := files[|files| - 1];
      CountedByNameOrMatch(w, files[..|files| - 1], f);
      if g in w.files {
        AskedByNameOrMatch(w, w.files[g], w.dir(g), f);
      }
    }
  }

  /** Between two points of a walk no more errors came than the file was named, no more warnings than it was matched. */
  ghost predicate KeepsKinds(w: World, l: Progress, r: Progress, f: string, named: nat, matched: nat) {
    && Circulars(r.diags, f) + NameCount(w, l.files, f) <= Circulars(l.diags, f) + NameCount(w, r.files, f) + named
    && Overmatches(r.diags, f) + MatchCount(w, l.files, f) <= Overmatches(l.diags, f) + MatchCount(w, r.files, f) + matched
  }

  lemma {:induction false} NotedKinds(w: World, l: Progress, d: Diag, f: string)
    ensures KeepsKinds(w, l, Noted(l, d), f, AsNat(d == Circular(f)), AsNat(d == Overmatched(f)))
  {
    assert (l.diags + [d])[..|l.diags|] == l.diags;
  }

  lemma {:induction false} OpenedKinds(w: World, l: Progress, g: string, f: string)
    ensures var m := Opened(Visited(l, g), g);
            && NameCount(w, m.files, f) == NameCount(w, l.files, f) + NamedBy(w, g, f)
            && MatchCount(w, m.files, f) == MatchCount(w, l.files, f) + MatchedBy(w, g, f)
  {
    assert Opened(Visited(l, g), g).files[..|l.files|] == l.files;
  }

  lemma {:induction false} FileKinds(w: World, l: Progress, g: string, f: string)
    ensures KeepsKinds(w, l, FileLoaded(w, l, g), f, AsNat(g == f && f in l.visited), 0)
    decreases Unseen(w, l), 0, 0
  {
    if g in l.visited {
      NotedKinds(w, l, Circular(g), f);
    } else if g !in w.files {
      NotedKinds(w, Visited(l, g), Unreadable(g), f);
    } else {
      var m := Opened(Visited(l, g), g);
      VisitingShrinks(w, l.visited, m.visited);
      ItemsKinds(w, m, w.files[g], w.dir(g), f);
      OpenedKinds(w, l, g, f);
    }
  }

  lemma {:induction false} ItemsKinds(w: World, l: Progress, items: seq<Item>, baseDir: string, f: string)
    ensures KeepsKinds(w, l, ItemsLoaded(w, l, items, baseDir), f, Named(w, items, baseDir, f), Matched(w, items, baseDir, f))
    decreases Unseen(w, l), 3, |items|
  {
    if items != [] {
      var m := ItemLoaded(w, l, items[0], baseDir);
      ItemKinds(w, l, items[0], baseDir, f);
      VisitingShrinks(w, l.visited, m.visited);
      ItemsKinds(w, m, items[1..], baseDir, f);
    }
  }

  lemma {:induction false} ItemKinds(w: World, l: Progress, item: Item, baseDir: string, f: string)
    ensures KeepsKinds(w, l, ItemLoaded(w, l, item, baseDir), f, NamedIn(w, item, baseDir, f), MatchedIn(w, item, baseDir, f))
    decreases Unseen(w, l), 2, 0
  {
    if item.Include? {
      var target := Resolve(w, item.path, baseDir);
      if target.One? {
        FileKinds(w, l, target.file, f);
      } else if target.Many? {
        MatchesKinds(w, l, target.files, f);
      } else {
        NotedKinds(w, l, Skipped(target), f);
      }
    }
  }

  lemma {:induction false} MatchesKinds(w: World, l: Progress, files: seq<string>, f: string)
    ensures KeepsKinds(w, l, MatchesLoaded(w, l, files), f, 0, multiset(files)[f])
    decreases Unseen(w, l), 1, |files| + 1
  {
    if files != [] {
      var m := MatchLoaded(w, l, files[0]);
      if files[0] in l.visited {
        NotedKinds(w, l, Overmatched(files[0]), f);
      } else {
        FileKinds(w, l, files[0], f);
      }
      VisitingShrinks(w, l.visited, m.visited);
      MatchesKinds(w, m, files[1..], f);
      assert files == [files[0]] + files[1..];
    }
  }

  /**
   Which reports are errors. The requests by name, the load itself among them, give as
   many errors, the matches as many warnings, but for the one request, of either kind,
   that came first and visited the file.
   */
  lemma {:induction false} KindsOfReports(w: World, root: string, f: string)
    ensures var r := FileLoaded(w, NOTHING, root);
            var named, matched := NameCount(w, r.files, f) + AsNat(f == root), MatchCount(w, r.files, f);
            var errors, warnings := Circulars(r.diags, f), Overmatches(r.diags, f);
            && errors <= named && warnings <= matched
            && (named + matched > 0 ==> errors + warnings == named + matched - 1)
            && (f == root ==> errors == named - 1)
  {
    var r := FileLoaded(w, NOTHING, root);
    FileKinds(w, NOTHING, root, f);
    AskedAgainIsReported(w, root, f);
    ReportsAreOfTwoKinds(r.diags, f);
    CountedByNameOrMatch(w, r.files, f);
  }

  lemma {:induction false} NobodyMatches(w: World, files: seq<string>, f: string)
    requires forall g :: g in files ==> MatchedBy(w, g, f) == 0
    ensures MatchCount(w, files, f) == 0
  {
    if files != [] {
      assert files[|files| - 1] in files;
      NobodyMatches(w, files[..|files| - 1], f);
    }
  }

  lemma {:induction false} CircularsAreThere(diags: seq<Diag>, f: string)
    ensures Circulars(diags, f) > 0 <==> Circular(f) in diags
  {
    if diags != [] {
      var last := |diags| - 1;
      CircularsAreThere(diags[..last], f);
      assert diags == diags[..last] + [diags[last]];
    }
  }

  /** A cycle whose files no pattern matches is an error on one of them. */
  lemma {:induction false} CyclesAreErrors(w: World, root: string, f: string) returns (x: string)
    requires Reachable(w, root, f) && OnCycle(w, f)
    requires forall g, y :: Reachable(w, root, g) && Together(w, f, y) ==> MatchedBy(w, g, y) == 0
    ensures Together(w, f, x) && Circular(x) in FileLoaded(w, NOTHING, root).diags
  {
    var r := FileLoaded(w, NOTHING, root);
    x := CyclesAreReported(w, root, f);
    LoadsWhatIsReachable(w, root);
    NobodyMatches(w, r.files, x);
    KindsOfReports(w, root, x);
    ReportsAreOfTwoKinds(r.diags, x);
    CircularsAreThere(r.diags, x);
  }
}
