/**
 Loading a file with all it includes, as functions of what has been loaded so far, and
 the include graph it walks.
 */
module IncludeGraph {
  import opened Prelude

  /** A directive, of which only the include's path matters here. */
  datatype Item = Plain(id: int) | Include(path: string)

  /**
   What the loader asks its surroundings: the readable files and the path functions.
   `expand` gives the sorted matches of a pattern, or nothing when the pattern is bad.
   */
  datatype World = World(
    files: map<string, seq<Item>>,
    isAbs: string -> bool,
    join: (string, string) -> string,
    abs: string -> Option<string>,
    dir: string -> string,
    hasGlob: string -> bool,
    expand: string -> Option<seq<string>>)

  /** What an include asks for. */
  datatype Target = NoBaseDir | BadPath | BadGlob | NoMatch | One(file: string) | Many(files: seq<string>)

  datatype Diag = Circular(file: string) | Unreadable(file: string) | Overmatched(file: string) | Skipped(why: Target)

  datatype Progress = Progress(visited: set<string>, files: seq<string>, directives: seq<int>, diags: seq<Diag>)

  function Resolve(w: World, path: string, baseDir: string): Target {
    if !w.isAbs(path) && baseDir == "" then NoBaseDir
    else
      var absolute := w.abs(if w.isAbs(path) then path else w.join(baseDir, path));
      if absolute.None? then BadPath
      else if !w.hasGlob(absolute.value) then One(absolute.value)
      else
        var matches := w.expand(absolute.value);
        if matches.None? then BadGlob else if matches.value == [] then NoMatch else Many(matches.value)
  }

  /** The readable files that have not been visited. */
  function Unseen(w: World, l: Progress): nat {
    |w.files.Keys - l.visited|
  }

  lemma {:induction false} VisitingShrinks(w: World, a: set<string>, b: set<string>)
    requires a <= b
    ensures |w.files.Keys - b| <= |w.files.Keys - a|
    ensures forall f :: f in w.files && f in b && f !in a ==> |w.files.Keys - b| < |w.files.Keys - a|
  {
    SubsetSize(w.files.Keys - b, w.files.Keys - a);
    forall f | f in w.files && f in b && f !in a ensures |w.files.Keys - b| < |w.files.Keys - a| {
      SubsetSize(w.files.Keys - b, w.files.Keys - a - {f});
    }
  }

  function Noted(l: Progress, d: Diag): Progress {
    l.(diags := l.diags + [d])
  }

  function Visited(l: Progress, file: string): Progress {
    l.(visited := l.visited + {file})
  }

  function Opened(l: Progress, file: string): Progress {
    l.(files := l.files + [file])
  }

  /** One file and all it includes. */
  function FileLoaded(w: World, l: Progress, file: string): (r: Progress)
    ensures l.visited <= r.visited
    decreases Unseen(w, l), 0, 0
  {
    if file in l.visited then Noted(l, Circular(file))
    else if file !in w.files then Noted(Visited(l, file), Unreadable(file))
    else
      VisitingShrinks(w, l.visited, Visited(l, file).visited);
      ItemsLoaded(w, Opened(Visited(l, file), file), w.files[file], w.dir(file))
  }

  /** The directives of a file, from the first on. */
  function ItemsLoaded(w: World, l: Progress, items: seq<Item>, baseDir: string): (r: Progress)
    ensures l.visited <= r.visited
    decreases Unseen(w, l), 3, |items|
  {
    if items == [] then l
    else
      var next := ItemLoaded(w, l, items[0], baseDir);
      VisitingShrinks(w, l.visited, next.visited);
      ItemsLoaded(w, next, items[1..], baseDir)
  }

  function ItemLoaded(w: World, l: Progress, item: Item, baseDir: string): (r: Progress)
    ensures l.visited <= r.visited
    decreases Unseen(w, l), 2, 0
  {
    match item
    case Plain(id) => l.(directives := l.directives + [id])
    case Include(path) =>
      match Resolve(w, path, baseDir)
      case One(file) => FileLoaded(w, l, file)
      case Many(files) => MatchesLoaded(w, l, files)
      case why => Noted(l, Skipped(why))
  }

  /** The matches of a pattern. */
  function MatchesLoaded(w: World, l: Progress, files: seq<string>): (r: Progress)
    ensures l.visited <= r.visited
    decreases Unseen(w, l), 1, |files| + 1
  {
    if files == [] then l
    else
      var next := MatchLoaded(w, l, files[0]);
      VisitingShrinks(w, l.visited, next.visited);
      MatchesLoaded(w, next, files[1..])
  }

  /** A match that was visited before is only noted. */
  function MatchLoaded(w: World, l: Progress, file: string): (r: Progress)
    ensures l.visited <= r.visited
    decreases Unseen(w, l), 1, 0
  {
    if file in l.visited then Noted(l, Overmatched(file)) else FileLoaded(w, l, file)
  }

  // ------------------------------------------------------------------ the graph

  function FilesOf(target: Target): seq<string> {
    match target
    case One(file) => [file]
    case Many(files) => files
    case _ => []
  }

  /** The files a list of directives asks for, once per mention. */
  function Asked(w: World, items: seq<Item>, baseDir: string): seq<string> {
    if items == [] then []
    else AskedIn(w, items[0], baseDir) + Asked(w, items[1..], baseDir)
  }

  function AskedIn(w: World, item: Item, baseDir: string): seq<string> {
    if item.Include? then FilesOf(Resolve(w, item.path, baseDir)) else []
  }

  function AskedBy(w: World, file: string): seq<string> {
    if file in w.files then Asked(w, w.files[file], w.dir(file)) else []
  }

  /** A way through the graph, each file asking for the next. */
  ghost predicate Way(w: World, files: seq<string>) {
    |files| > 0 && forall i :: 0 <= i < |files| - 1 ==> files[i + 1] in AskedBy(w, files[i])
  }

  ghost predicate Reachable(w: World, root: string, file: string) {
    exists way: seq<string> :: Way(w, way) && way[0] == root && way[|way| - 1] == file
  }

  lemma {:induction false} RootIsReachable(w: World, root: string)
    ensures Reachable(w, root, root)
  {
    assert Way(w, [root]);
  }

  lemma {:induction false} AskedIsReachable(w: World, root: string, file: string, next: string)
    requires Reachable(w, root, file) && next in AskedBy(w, file)
    ensures Reachable(w, root, next)
  {
    var way: seq<string> :| Way(w, way) && way[0] == root && way[|way| - 1] == file;
    var longer := way + [next];
    assert Way(w, longer);
    assert longer[0] == root && longer[|longer| - 1] == next;
  }

  /** What is closed under asking contains all that can be reached from its members. */
  lemma {:induction false} ClosedContainsWays(w: World, seen: set<string>, way: seq<string>)
    requires Way(w, way) && way[0] in seen
    requires forall f, g :: f in seen && g in AskedBy(w, f) ==> g in seen
    ensures way[|way| - 1] in seen
  {
    if |way| > 1 {
      var n := |way| - 1;
      assert Way(w, way[..n]);
      ClosedContainsWays(w, seen, way[..n]);
      assert way[n] in AskedBy(w, way[n - 1]);
    }
  }
}
