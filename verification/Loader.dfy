/** The loader, which collects what it loads while it descends into includes. */
module Loaders {
  import opened IncludeGraph
  import opened IncludeLaws

  class Loader {
    var visited: set<string>
    var files: seq<string>
    var directives: seq<int>
    var diagnostics: seq<Diag>

    ghost function Held(): Progress
      reads this
    {
      Progress(visited, files, directives, diagnostics)
    }

    constructor ()
      ensures Held() == NOTHING
    {
      visited, files, directives, diagnostics := {}, [], [], [];
    }

    method Note(d: Diag)
      modifies this
      ensures Held() == Noted(old(Held()), d)
    {
      diagnostics := diagnostics + [d];
    }

    method LoadFile(w: World, file: string)
      modifies this
      ensures Held() == FileLoaded(w, old(Held()), file)
      decreases Unseen(w, Held()), 0, 0
    {
      if file in visited {
        Note(Circular(file));
        return;
      }
      visited := visited + {file};
      if file !in w.files {
        Note(Unreadable(file));
        return;
      }
      VisitingShrinks(w, old(visited), visited);
      LoadItems(w, file, w.files[file], w.dir(file));
    }

    /** Records the file and goes through its directives. */
    method LoadItems(w: World, file: string, items: seq<Item>, baseDir: string)
      modifies this
      ensures Held() == ItemsLoaded(w, Opened(old(Held()), file), items, baseDir)
      decreases Unseen(w, Held()), 3, 0
    {
      files := files + [file];
      ghost var l := Held();
      var i := 0;
      while i < |items|
        invariant i <= |items| && l.visited <= visited
        invariant ItemsLoaded(w, Held(), items[i..], baseDir) == ItemsLoaded(w, l, items, baseDir)
      {
        assert items[i..][1..] == items[i + 1..];
        ghost var m := Held();
        VisitingShrinks(w, l.visited, m.visited);
        match items[i] {
          case Plain(id) => directives := directives + [id];
          case Include(path) => HandleInclude(w, path, baseDir);
        }
        assert Held() == ItemLoaded(w, m, items[i], baseDir);
        i := i + 1;
      }
    }

    method HandleInclude(w: World, path: string, baseDir: string)
      modifies this
      ensures Held() == ItemLoaded(w, old(Held()), Include(path), baseDir)
      decreases Unseen(w, Held()), 2, 0
    {
      if !w.isAbs(path) && baseDir == "" {
        Note(Skipped(NoBaseDir));
        return;
      }
      var absolute := w.abs(if w.isAbs(path) then path else w.join(baseDir, path));
      if absolute.None? {
        Note(Skipped(BadPath));
        return;
      }
      if !w.hasGlob(absolute.value) {
        LoadFile(w, absolute.value);
        return;
      }
      var matches := w.expand(absolute.value);
      if matches.None? {
        Note(Skipped(BadGlob));
        return;
      }
      if |matches.value| == 0 {
        Note(Skipped(NoMatch));
        return;
      }
      LoadMatches(w, matches.value);
    }

    /** An already loaded match is noted and passed over. */
    method LoadMatches(w: World, matches: seq<string>)
      modifies this
      ensures Held() == MatchesLoaded(w, old(Held()), matches)
      decreases Unseen(w, Held()), 1, 1
    {
      ghost var l := Held();
      var i := 0;
      while i < |matches|
        invariant i <= |matches| && l.visited <= visited
        invariant MatchesLoaded(w, Held(), matches[i..]) == MatchesLoaded(w, l, matches)
      {
        assert matches[i..][1..] == matches[i + 1..];
        VisitingShrinks(w, l.visited, visited);
        if matches[i] in visited {
          Note(Overmatched(matches[i]));
        } else {
          LoadFile(w, matches[i]);
        }
        i := i + 1;
      }
    }
  }

  /** Loads a file with all it includes. */
  method Load(w: World, root: string) returns (files: seq<string>, directives: seq<int>, diagnostics: seq<Diag>)
    ensures forall f :: f in files <==> f in w.files && Reachable(w, root, f)
    ensures forall i, j :: 0 <= i < j < |files| ==> files[i] != files[j]
    ensures forall id :: multiset(directives)[id] == AllIdCount(w, files, id)
    ensures forall f :: Reports(diagnostics, f) > 0 <==> AskCount(w, files, f) + AsNat(f == root) > 1
  {
    var loader := new Loader();
    loader.LoadFile(w, root);
    LoadsWhatIsReachable(w, root);
    forall id ensures multiset(loader.directives)[id] == AllIdCount(w, loader.files, id) {
      EveryDirectiveIsKept(w, root, id);
    }
    forall f ensures Reports(loader.diagnostics, f) > 0 <==> AskCount(w, loader.files, f) + AsNat(f == root) > 1 {
      AskedAgainIsReported(w, root, f);
    }
    return loader.files, loader.directives, loader.diagnostics;
  }
}
