/** The tools of `tools/safe_tools.py` that the recursive brain may call: a
    sandbox check on relative paths, a directory listing, a file read with an
    optional line range and a line cap, a keyword search over the workspace
    and a guarded call into a sub-agent. Paths are POSIX paths; the workspace
    root is held as its list of directory names. What the file system holds
    (listings, file lines, file contents in walk order) is an input. */
module SafeTools {
  import opened Common

  const AccessDenied := "Error: Access Denied (Path outside workspace)"
  const DirNotFound := "Error: Directory not found"
  const FileNotFoundPrefix := "Error: File not found: "
  const EmptyFile := "[Empty File]"
  const BadLineFormat := "Error: Invalid line format. Use '1-50'."
  const TruncationMarker := "\n... [Truncated at 500 lines]"
  const NoMatches := "No matches found."
  const NoCallback := "Error: Recursion not enabled (No callback provided)"
  const ContextTooLarge := "Error: Context too large for recursion (Max 100k chars)"
  const RecursionErrorPrefix := "Error during recursion: "

  const MaxListed := 50
  const MaxLines := 500
  const MaxResults := 5
  const MaxContext := 100000

  // ---------------------------------------------------------------------------
  // `_is_safe_path`

  /** A normalized absolute directory: its names, none empty, `.` or `..`. */
  predicate NormalRoot(root: seq<string>) {
    forall i :: 0 <= i < |root| ==> root[i] != "" && root[i] != "." && root[i] != ".."
  }

  /** One path component applied by `os.path.abspath`: empty and `.` are
      dropped, `..` goes up (and stays at `/` at the top), a name goes down. */
  function Step(stack: seq<string>, part: string): seq<string> {
    if part == "" || part == "." then stack
    else if part == ".." then (if stack == [] then [] else stack[..|stack| - 1])
    else stack + [part]
  }

  /** `os.path.abspath` of the components `parts` taken from `stack`. */
  function Normalize(stack: seq<string>, parts: seq<string>): seq<string>
    decreases |parts|
  {
    if parts == [] then stack else Normalize(Step(stack, parts[0]), parts[1..])
  }

  predicate IsAbsolute(path: string) {
    |path| > 0 && path[0] == '/'
  }

  /** `_is_safe_path`: a relative path whose joined, normalized form has the
      root as its leading directories (`os.path.commonpath` is the root). */
  predicate IsSafePath(root: seq<string>, path: string) {
    !IsAbsolute(path) && root <= Normalize(root, SplitOn(path, '/'))
  }

  /** Without `..`, normalizing never leaves the directory it starts from. */
  lemma {:induction false} NormalizeKeepsPrefix(stack: seq<string>, parts: seq<string>)
    requires forall i :: 0 <= i < |parts| ==> parts[i] != ".."
    ensures stack <= Normalize(stack, parts)
    decreases |parts|
  {
    if parts != [] {
      var next := Step(stack, parts[0]);
      assert stack <= next;
      NormalizeKeepsPrefix(next, parts[1..]);
    }
  }

  /** Every relative path without a `..` component is inside the workspace. */
  lemma NoParentIsSafe(root: seq<string>, path: string)
    requires !IsAbsolute(path)
    requires forall i :: 0 <= i < |SplitOn(path, '/')| ==> SplitOn(path, '/')[i] != ".."
    ensures IsSafePath(root, path)
  {
    NormalizeKeepsPrefix(root, SplitOn(path, '/'));
  }

  /** `..` from a workspace below `/` is refused. */
  lemma ParentEscapes(root: seq<string>)
    requires |root| > 0
    ensures !IsSafePath(root, "..")
  {
    SplitWhole("..", '/');
    assert Normalize(root, [".."]) == Normalize(root[..|root| - 1], []);
    assert !(root <= root[..|root| - 1]);
  }

  // ---------------------------------------------------------------------------
  // `list_dir`

  /** The names that do not start with a dot, in listing order. */
  function Visible(items: seq<string>): seq<string> {
    if items == [] then []
    else Visible(items[..|items| - 1]) + (if StartsWith(items[|items| - 1], ".") then [] else [items[|items| - 1]])
  }

  /** The hidden names and only those are dropped. */
  lemma {:induction false} VisibleSpec(items: seq<string>)
    ensures |Visible(items)| <= |items|
    ensures forall x :: x in Visible(items) <==> x in items && !StartsWith(x, ".")
  {
    if items != [] {
      var init := items[..|items| - 1];
      VisibleSpec(init);
      assert items == init + [items[|items| - 1]];
    }
  }

  datatype DirReply = DirError(message: string) | DirItems(items: seq<string>)

  /** `list_dir`: the first 50 visible names of the directory; `entries` is
      `None` when nothing exists at the path. The reply's text form (`str` of a
      list) is not part of this model. */
  function ListDir(root: seq<string>, path: string, entries: Option<seq<string>>): (r: DirReply)
    ensures !IsSafePath(root, path) ==> r == DirError(AccessDenied)
    ensures IsSafePath(root, path) && entries.None? ==> r == DirError(DirNotFound)
    ensures IsSafePath(root, path) && entries.Some? ==>
              r.DirItems? && |r.items| <= MaxListed
              && (forall x :: x in r.items ==> x in entries.value && !StartsWith(x, "."))
              && (|Visible(entries.value)| <= MaxListed ==>
                    forall x :: x in entries.value && !StartsWith(x, ".") ==> x in r.items)
    // the first 50 visible names, in listing order
    ensures IsSafePath(root, path) && entries.Some? ==>
              |r.items| == Min(|Visible(entries.value)|, MaxListed) && r.items <= Visible(entries.value)
  {
    if !IsSafePath(root, path) then DirError(AccessDenied)
    else if entries.None? then DirError(DirNotFound)
    else
      VisibleSpec(entries.value);
      DirItems(Prefix(Visible(entries.value), MaxListed))
  }

  // ---------------------------------------------------------------------------
  // `read_file`

  /** A 0-based slice `[start:end]` of the file's lines. */
  datatype Window = Window(start: nat, end: nat)

  /** `int(part)` on a piece of a `-`-split never sees a minus sign, so it is never negative. */
  lemma NoMinusNonNegative(part: string)
    requires '-' !in part
    ensures ParseInt(part).Some? ==> ParseInt(part).value >= 0
  {
    var l := LStrip(part);
    var t := RStrip(l);
    assert t == Strip(part);
    if |t| > 0 {
      assert t[0] == l[0] == part[|part| - |l|];
    }
  }

  /** The slice `read_file` takes of an `n`-line file: the whole file without a
      range or when the range does not split into two parts, `[a-1:b]`
      clamped to the file for `"a-b"`, and `None` (the format error) when a
      part is not an integer. */
  function LineWindow(lines: Option<string>, n: nat): (w: Option<Window>)
    ensures w.Some? ==> w.value.end <= n
    ensures lines.None? || lines == Some("") ==> w == Some(Window(0, n))
    ensures lines.Some? && |SplitOn(lines.value, '-')| != 2 ==> w == Some(Window(0, n))
  {
    if lines.None? || lines.value == "" then Some(Window(0, n))
    else
      var parts := SplitOn(lines.value, '-');
      if |parts| != 2 then Some(Window(0, n))
      else
        var a := PartValue(parts[0]);
        var b := PartValue(parts[1]);
        if a.None? || b.None? then None
        else Some(Window(Max(0, a.value - 1), Min(n, b.value)))
  }

  /** `int(part)` for a part of the range, which holds no `-`. */
  function PartValue(part: string): Option<nat>
    requires '-' !in part
  {
    var v := ParseInt(part);
    NoMinusNonNegative(part);
    if v.None? then None else Some(v.value)
  }

  /** Splitting `x-y` on `-`, where neither side holds a `-`, gives the two sides. */
  lemma {:induction false} SplitAround(x: string, y: string)
    requires '-' !in x && '-' !in y
    ensures SplitOn(x + "-" + y, '-') == [x, y]
    decreases |x|
  {
    if x == [] {
      assert x + "-" + y == ['-'] + y;
      assert ("-" + y)[1..] == y;
      SplitWhole(y, '-');
    } else {
      SplitAround(x[1..], y);
      assert (x + "-" + y)[1..] == x[1..] + "-" + y;
      assert [x[0]] + x[1..] == x;
    }
  }

  /** A string without the separator splits into itself. */
  lemma {:induction false} SplitWhole(y: string, sep: char)
    requires sep !in y
    ensures SplitOn(y, sep) == [y]
    decreases |y|
  {
    if y != [] {
      SplitWhole(y[1..], sep);
      assert [y[0]] + y[1..] == y;
    }
  }

  /** A range written as `"a-b"` selects lines `a` to `b`, counted from 1,
      clipped to the file. */
  lemma RangeWindow(a: nat, b: nat, n: nat)
    ensures LineWindow(Some(NatToString(a) + "-" + NatToString(b)), n) == Some(Window(Max(0, a - 1), Min(n, b)))
  {
    PartValueOfNat(a);
    PartValueOfNat(b);
    PartsWindow(NatToString(a), NatToString(b), a, b, n);
  }

  /** The window of `x-y` for two parts that read as `a` and `b`. */
  lemma PartsWindow(x: string, y: string, a: nat, b: nat, n: nat)
    requires '-' !in x && '-' !in y
    requires PartValue(x) == Some(a) && PartValue(y) == Some(b)
    ensures LineWindow(Some(x + "-" + y), n) == Some(Window(Max(0, a - 1), Min(n, b)))
  {
    SplitAround(x, y);
    assert x + "-" + y != "";
  }

  /** A range `x-y` gives the format error exactly when one of its two parts
      is not an integer as `int()` reads it. */
  lemma BadPartFormatError(x: string, y: string, n: nat)
    requires '-' !in x && '-' !in y
    ensures LineWindow(Some(x + "-" + y), n).None? <==> PartValue(x).None? || PartValue(y).None?
  {
    SplitAround(x, y);
    assert x + "-" + y != "";
  }

  /** A range whose parts use underscores between digits reads as `int()`
      reads them: `"1_0-2_0"` selects lines 10 to 20. */
  lemma GroupedRange(x: string, y: string, n: nat)
    requires GroupedDigits(x) && GroupedDigits(y)
    ensures var a := GroupedValue(x);
            var b := GroupedValue(y);
            LineWindow(Some(x + "-" + y), n) == Some(Window(Max(0, a - 1), Min(n, b)))
  {
    GroupedPartValue(x);
    GroupedPartValue(y);
    PartsWindow(x, y, GroupedValue(x), GroupedValue(y), n);
  }

  /** A grouped part holds no `-` and reads as its digits. */
  lemma GroupedPartValue(x: string)
    requires GroupedDigits(x)
    ensures '-' !in x && PartValue(x) == Some(GroupedValue(x))
  {
    ParseGrouped(x);
    GroupedChars(x);
    assert forall i :: 0 <= i < |x| ==> x[i] != '-';
  }

  /** A part written in decimal reads back as its number. */
  lemma PartValueOfNat(a: nat)
    ensures '-' !in NatToString(a) && PartValue(NatToString(a)) == Some(a)
  {
    var x := NatToString(a);
    DigitsValueOfNatToString(a);
    ParseUnsigned(x);
  }

  /** Whether the window exceeds the cap. */
  predicate Truncated(w: Window) {
    w.end > w.start && w.end - w.start > MaxLines
  }

  /** The lines shown for a window: at most `MaxLines` of them, from `start` on. */
  function Shown(fileLines: seq<string>, w: Window): (r: seq<string>)
    requires w.end <= |fileLines|
    ensures |r| <= MaxLines
    ensures |r| == if w.start <= w.end then Min(MaxLines, w.end - w.start) else 0
    ensures w.start <= w.end ==> r == fileLines[w.start..w.start + |r|]
  {
    Slice(fileLines, w.start, if Truncated(w) then w.start + MaxLines else w.end)
  }

  /** `read_file`: `fileLines` are the file's lines with their line ends,
      `None` when the path is not a file. */
  function ReadFile(root: seq<string>, path: string, fileLines: Option<seq<string>>, lines: Option<string>): (r: string)
    ensures !IsSafePath(root, path) ==> r == AccessDenied
    ensures IsSafePath(root, path) && fileLines.None? ==> r == FileNotFoundPrefix + path
    ensures IsSafePath(root, path) && fileLines == Some([]) ==> r == EmptyFile
    ensures IsSafePath(root, path) && fileLines.Some? && fileLines.value != [] ==>
              var w := LineWindow(lines, |fileLines.value|);
              (w.None? ==> r == BadLineFormat)
              && (w.Some? ==> r == Concat(Shown(fileLines.value, w.value)) + (if Truncated(w.value) then TruncationMarker else ""))
  {
    if !IsSafePath(root, path) then AccessDenied
    else if fileLines.None? then FileNotFoundPrefix + path
    else if fileLines.value == [] then EmptyFile
    else
      var w := LineWindow(lines, |fileLines.value|);
      if w.None? then BadLineFormat
      else Concat(Shown(fileLines.value, w.value)) + (if Truncated(w.value) then TruncationMarker else "")
  }

  /** A file of at most 500 lines read without a range comes back whole. */
  lemma ReadSmallFileWhole(root: seq<string>, path: string, fileLines: seq<string>)
    requires IsSafePath(root, path) && 0 < |fileLines| <= MaxLines
    ensures ReadFile(root, path, Some(fileLines), None) == Concat(fileLines)
  {
    var w := Window(0, |fileLines|);
    assert LineWindow(None, |fileLines|) == Some(w);
    assert !Truncated(w);
    assert Shown(fileLines, w) == fileLines;
  }

  // ---------------------------------------------------------------------------
  // `search_memory`

  /** A file `os.walk` yields: the directories leading to it, its name, and
      its content (`None` when opening it fails). */
  datatype WalkFile = WalkFile(dirs: seq<string>, name: string, content: Option<string>)

  /** Searched files: not under a hidden directory, with one of the four extensions. */
  predicate Searched(f: WalkFile) {
    (forall i :: 0 <= i < |f.dirs| ==> !StartsWith(f.dirs[i], "."))
    && (EndsWith(f.name, ".md") || EndsWith(f.name, ".txt") || EndsWith(f.name, ".py") || EndsWith(f.name, ".json"))
  }

  /** A searched, readable file whose lower-cased content holds the lower-cased query. */
  predicate Matches(f: WalkFile, query: string) {
    Searched(f) && f.content.Some? && Contains(Lower(f.content.value), Lower(query))
  }

  function RelPath(f: WalkFile): string {
    Join(f.dirs + [f.name], "/")
  }

  /** Every hit of the walk, in walk order. */
  function Hits(files: seq<WalkFile>, query: string): seq<string> {
    if files == [] then []
    else
      var last := files[|files| - 1];
      Hits(files[..|files| - 1], query) + (if Matches(last, query) then ["Found in " + RelPath(last)] else [])
  }

  /** Walking further only adds hits after the ones found so far. */
  lemma {:induction false} HitsGrow(xs: seq<WalkFile>, ys: seq<WalkFile>, query: string)
    ensures Hits(xs, query) <= Hits(xs + ys, query)
    decreases |ys|
  {
    if ys == [] {
      assert xs + ys == xs;
    } else {
      var init := ys[..|ys| - 1];
      HitsGrow(xs, init, query);
      assert (xs + ys)[..|xs + ys| - 1] == xs + init;
    }
  }

  /** `search_memory`: the first five hits joined by newlines, or the
      no-match text. `files` is the walk in order. */
  method SearchMemory(files: seq<WalkFile>, query: string) returns (r: string)
    ensures Hits(files, query) == [] ==> r == NoMatches
    ensures Hits(files, query) != [] ==> r == Join(Prefix(Hits(files, query), MaxResults), "\n")
  {
    var results: seq<string> := [];
    var count := 0;
    var i := 0;
    while i < |files|
      invariant 0 <= i <= |files|
      invariant results == Hits(files[..i], query)
      invariant count == |results| < MaxResults
    {
      assert files[..i + 1][..i] == files[..i];
      var f := files[i];
      if Searched(f) && f.content.Some? && Contains(Lower(f.content.value), Lower(query)) {
        results := results + ["Found in " + RelPath(f)];
        count := count + 1;
      }
      i := i + 1;
      if count >= MaxResults {
        break;
      }
    }
    HitsGrow(files[..i], files[i..], query);
    assert files[..i] + files[i..] == files;
    ghost var all := Hits(files, query);
    assert results <= all && |results| <= MaxResults;
    assert |results| < MaxResults ==> i == |files| && files[..i] == files;
    assert Prefix(all, MaxResults) == results;
    if results == [] {
      return NoMatches;
    }
    r := Join(results, "\n");
  }

  // ---------------------------------------------------------------------------
  // `delegate_thought`

  /** What the callback does when called. */
  datatype CallbackReply = Answered(text: string) | CallbackRaised(message: string)

  /** The reply, and the `(prompt, context)` the callback was called with, if it was. */
  datatype Delegation = Delegation(reply: string, call: Option<(string, string)>)

  /** `delegate_thought`: no call without a callback or with a context over
      100000 characters; otherwise the callback gets both texts unchanged and
      its answer, or its exception as an error text, is the reply. */
  function DelegateThought(hasCallback: bool, prompt: string, context: string, callback: CallbackReply): (d: Delegation)
    ensures d.call.None? <==> !hasCallback || |context| > MaxContext
    ensures !hasCallback ==> d.reply == NoCallback
    ensures hasCallback && |context| > MaxContext ==> d.reply == ContextTooLarge
    ensures d.call.Some? ==>
              d.call.value == (prompt, context)
              && d.reply == (if callback.Answered? then callback.text else RecursionErrorPrefix + callback.message)
  {
    if !hasCallback then Delegation(NoCallback, None)
    else if |context| > MaxContext then Delegation(ContextTooLarge, None)
    else Delegation(if callback.Answered? then callback.text else RecursionErrorPrefix + callback.message, Some((prompt, context)))
  }
}
