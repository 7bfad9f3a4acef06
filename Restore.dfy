/** The restoring script (recursivereverse.py): the combined text is cut at the record
    delimiter, each block gives a path (its header, stripped) and a body (the rest, less one
    trailing separator), every body is written back to its path, and afterwards every file
    of the tree not named in the text is deleted, except the combined file, and the empty
    directories below the root are removed. */
module Restore {
  import opened Wrappers
  import opened Text
  import opened Combine

  // ---------------------------------------------------------------- parsing

  /** One block: the header up to the first end-of-header marker, stripped, and the rest
      with one trailing separator removed if it has one. */
  function ParseBlock(block: string): (r: (string, string))
    ensures var (header, marker, rest) := Partition(block, HeaderEnd);
      && r.0 == Strip(header)
      && (EndsWith(rest, Separator) ==> r.1 + Separator == rest)
      && (!EndsWith(rest, Separator) ==> r.1 == rest)
    ensures Free(block, HeaderEnd) ==> r.1 == ""
  {
    var (header, _, body) := Partition(block, HeaderEnd);
    (Strip(header), if EndsWith(body, Separator) then body[..|body| - |Separator|] else body)
  }

  /** `text.split("----- ")[1:]`: the blocks after the first delimiter. */
  function Blocks(text: string): (r: seq<string>)
    ensures forall k :: 0 <= k < |r| ==> Free(r[k], Delimiter)
    ensures |r| == 0 <==> Free(text, Delimiter)
  {
    var pieces := SplitOn(text, Delimiter);
    assert Free(text, Delimiter) ==> Find(text, Delimiter).None?;
    pieces[1..]
  }

  function ParseBlocks(blocks: seq<string>): (r: seq<(string, string)>)
    ensures |r| == |blocks|
  {
    seq(|blocks|, k requires 0 <= k < |blocks| => ParseBlock(blocks[k]))
  }

  /** The (path, body) pairs a combined text describes. */
  function Parse(text: string): (r: seq<(string, string)>)
    ensures |r| == |Blocks(text)|
  {
    ParseBlocks(Blocks(text))
  }

  // ---------------------------------------------------------------- the round trip

  /** What a record must avoid for its path and body to be read back: a newline in the
      path, whitespace around it, the delimiter in the header line after the delimiter
      itself, and the delimiter in the body. */
  predicate Recoverable(path: string, body: string) {
    && '\n' !in path
    && (path == [] || (!IsSpace(path[0]) && !IsSpace(path[|path| - 1])))
    && Free(path + HeaderEnd, Delimiter)
    && Free(body, Delimiter)
  }

  /** A record without its leading delimiter, as the split leaves it. */
  function Rest(path: string, body: string): string {
    path + HeaderEnd + body + Separator
  }

  lemma RecordParts(path: string, body: string)
    ensures Record(path, body) == Delimiter + Rest(path, body)
    ensures Rest(path, body)[..|path|] == path
    ensures Rest(path, body)[|path|..|path| + |HeaderEnd|] == HeaderEnd
    ensures Rest(path, body)[|path| + |HeaderEnd|..] == body + Separator
  {
    var r := Rest(path, body);
    assert r == path + (HeaderEnd + (body + Separator));
  }

  /** A recoverable record has no delimiter after its first one, and ends in a newline. */
  lemma RestFree(path: string, body: string)
    requires Recoverable(path, body)
    ensures Free(Rest(path, body), Delimiter)
    ensures |Rest(path, body)| > 0 && Rest(path, body)[|Rest(path, body)| - 1] == '\n'
  {
    var head := path + HeaderEnd;
    assert head[|head| - 1] == '\n';
    FreeAcrossNewline(head, body, Delimiter);
    assert Free(Separator, Delimiter);
    FreeAcrossNewline(head + body, Separator, Delimiter);
  }

  /** The block of a recoverable record parses to its path and body. */
  lemma BlockRoundTrip(path: string, body: string)
    requires Recoverable(path, body)
    ensures ParseBlock(Rest(path, body)) == (path, body)
  {
    var r := Rest(path, body);
    RecordParts(path, body);
    assert OccursAt(r, HeaderEnd, |path|);
    forall j | 0 <= j < |path|
      ensures !OccursAt(r, HeaderEnd, j)
    {
      if j + |HeaderEnd| <= |r| {
        if j + 6 < |path| {
          assert r[j + 6] == path[j + 6];
        } else {
          assert r[j + 6] == HeaderEnd[j + 6 - |path|];
        }
        assert r[j..j + |HeaderEnd|][6] == r[j + 6];
      }
    }
    FindIs(r, HeaderEnd, |path|);
    assert Partition(r, HeaderEnd) == (path, HeaderEnd, body + Separator);
    StripUnspaced(path);
    assert (body + Separator)[..|body|] == body;
  }

  /** The blocks of the records without their delimiters. */
  function Rests(entries: seq<(string, string)>): (r: seq<string>)
    ensures |r| == |entries|
  {
    if entries == [] then [] else [Rest(entries[0].0, entries[0].1)] + Rests(entries[1..])
  }

  predicate AllRecoverable(entries: seq<(string, string)>) {
    forall k :: 0 <= k < |entries| ==> Recoverable(entries[k].0, entries[k].1)
  }

  /** Splitting the records after the first delimiter gives each record's block in order. */
  lemma {:induction false} SplitRests(entries: seq<(string, string)>)
    requires entries != [] && AllRecoverable(entries)
    ensures SplitOn(Rest(entries[0].0, entries[0].1) + Archive(entries[1..]), Delimiter) == Rests(entries)
    decreases |entries|
  {
    var r0 := Rest(entries[0].0, entries[0].1);
    var more := entries[1..];
    RestFree(entries[0].0, entries[0].1);
    if more == [] {
      assert r0 + Archive(more) == r0;
      assert Find(r0, Delimiter).None?;
    } else {
      RecordParts(more[0].0, more[0].1);
      var tail := Rest(more[0].0, more[0].1) + Archive(more[1..]);
      assert r0 + Archive(more) == r0 + (Delimiter + tail);
      SplitAfterRecord(r0, tail);
      RecoverableTail(entries);
      SplitRests(more);
    }
  }

  /** A record's block followed by the delimiter splits off as the first piece. */
  lemma SplitAfterRecord(r0: string, tail: string)
    requires Free(r0, Delimiter) && |r0| > 0 && r0[|r0| - 1] == '\n'
    ensures SplitOn(r0 + (Delimiter + tail), Delimiter) == [r0] + SplitOn(tail, Delimiter)
  {
    var s := r0 + (Delimiter + tail);
    NoneBeforeNewline(r0, Delimiter + tail, Delimiter);
    assert s[|r0|..|r0| + |Delimiter|] == Delimiter;
    FindIs(s, Delimiter, |r0|);
    assert s[..|r0|] == r0;
    assert s[|r0| + |Delimiter|..] == tail;
  }

  lemma RecoverableTail(entries: seq<(string, string)>)
    requires entries != [] && AllRecoverable(entries)
    ensures AllRecoverable(entries[1..])
  {
    forall k | 0 <= k < |entries| - 1 ensures Recoverable(entries[1..][k].0, entries[1..][k].1) {
      assert entries[1..][k] == entries[k + 1];
    }
  }

  lemma ParseRests(entries: seq<(string, string)>)
    requires AllRecoverable(entries)
    ensures ParseBlocks(Rests(entries)) == entries
  {
    forall k | 0 <= k < |entries|
      ensures ParseBlock(Rests(entries)[k]) == entries[k]
    {
      RestsAt(entries, k);
      BlockRoundTrip(entries[k].0, entries[k].1);
    }
  }

  lemma {:induction false} RestsAt(entries: seq<(string, string)>, k: nat)
    requires k < |entries|
    ensures Rests(entries)[k] == Rest(entries[k].0, entries[k].1)
    decreases k
  {
    if k > 0 {
      RestsAt(entries[1..], k - 1);
    }
  }

  /** A non-empty run of records starts with the delimiter, then the first record's block. */
  lemma ArchiveFront(entries: seq<(string, string)>)
    requires entries != []
    ensures var tail := Rest(entries[0].0, entries[0].1) + Archive(entries[1..]);
      && Archive(entries) == Delimiter + tail
      && Archive(entries)[0..|Delimiter|] == Delimiter
      && Archive(entries)[|Delimiter|..] == tail
  {
    var tail := Rest(entries[0].0, entries[0].1) + Archive(entries[1..]);
    RecordParts(entries[0].0, entries[0].1);
    assert Archive(entries) == Record(entries[0].0, entries[0].1) + Archive(entries[1..]);
    Assoc(Delimiter, Rest(entries[0].0, entries[0].1), Archive(entries[1..]));
    PrefixParts(Delimiter, tail);
  }

  lemma Assoc(a: string, b: string, c: string)
    ensures a + b + c == a + (b + c)
  {
  }

  lemma PrefixParts(a: string, b: string)
    ensures (a + b)[0..|a|] == a && (a + b)[|a|..] == b
  {
  }

  /** Restoring undoes combining: the combined text of recoverable records parses back to
      the same paths and bodies, in the same order. */
  lemma RoundTrip(entries: seq<(string, string)>)
    requires AllRecoverable(entries)
    ensures Parse(Archive(entries)) == entries
  {
    if entries == [] {
      assert Find("", Delimiter).None?;
    } else {
      var text := Archive(entries);
      ArchiveFront(entries);
      FindIs(text, Delimiter, 0);
      SplitRests(entries);
      ParseRests(entries);
    }
  }

  // ---------------------------------------------------------------- the tree

  /** The file tree below the root: the files by (normalised) path with their contents, and
      the directories. `norm` is `os.path.normpath` and `dirOf` is `os.path.dirname`. */
  class SourceTree {
    var files: map<string, string>
    var dirs: set<string>
    const root: string

    constructor (root: string, files: map<string, string>, dirs: set<string>)
      ensures this.root == root && this.files == files && this.dirs == dirs
    {
      this.root := root;
      this.files := files;
      this.dirs := dirs;
    }

    /** The write loop: each block's body is written to its path, the last block naming a
        path winning, and the normalised paths are collected. */
    method WriteBlocks(text: string, norm: string -> string) returns (expected: set<string>)
      modifies this
      ensures expected == ExpectedFiles(Parse(text), norm)
      ensures files == Written(old(files), Parse(text), norm)
      ensures dirs == old(dirs)
    {
      var blocks := Blocks(text);
      ghost var parsed := Parse(text);
      expected := {};
      for i := 0 to |blocks|
        invariant expected == ExpectedFiles(parsed[..i], norm)
        invariant files == Written(old(files), parsed[..i], norm)
        invariant dirs == old(dirs)
      {
        var entry := ParseBlock(blocks[i]);
        ParseAt(text, i);
        WriteStep(old(files), parsed, i, norm);
        files := files[norm(entry.0) := entry.1];
        expected := expected + {norm(entry.0)};
      }
      assert parsed[..|blocks|] == parsed;
    }

    /** The deletion loop: a listed file is removed when its normalised path is neither
        expected nor the combined file's. */
    method DeleteUnlisted(listing: seq<string>, expected: set<string>, combined: string, norm: string -> string)
      modifies this
      ensures files.Keys == old(files).Keys - Doomed(listing, expected, combined, norm)
      ensures forall q :: q in files ==> files[q] == old(files)[q]
      ensures dirs == old(dirs)
    {
      for i := 0 to |listing|
        invariant files.Keys == old(files).Keys - Doomed(listing[..i], expected, combined, norm)
        invariant forall q :: q in files ==> files[q] == old(files)[q]
        invariant dirs == old(dirs)
      {
        DoomedStep(listing, i, expected, combined, norm);
        var full := norm(listing[i]);
        if full == norm(combined) {
          continue;
        }
        if full !in expected {
          files := files - {full};
        }
      }
      assert listing[..|listing|] == listing;
    }

    /** A directory with nothing left in it. */
    predicate IsEmpty(d: string, dirOf: string -> string)
      reads this
    {
      EmptyIn(d, files, dirs, dirOf)
    }

    /** The directory loop, deepest first: every directory but the root that is empty when
        its turn comes is removed. */
    method RemoveEmptyDirs(order: seq<string>, dirOf: string -> string)
      modifies this
      ensures files == old(files)
      ensures dirs <= old(dirs)
      ensures root in dirs <==> root in old(dirs)
      ensures forall d :: d in old(dirs) && d !in dirs ==> d != root && d in order
      ensures forall d :: d in old(dirs) && d !in dirs ==> forall q :: q in files ==> dirOf(q) != d
      ensures dirs == Pruned(files, old(dirs), order, root, dirOf)
    {
      for i := 0 to |order|
        invariant files == old(files)
        invariant dirs == Pruned(files, old(dirs), order[..i], root, dirOf)
        invariant dirs <= old(dirs)
        invariant root in dirs <==> root in old(dirs)
        invariant forall d :: d in old(dirs) && d !in dirs ==> d != root && d in order[..i]
        invariant forall d :: d in old(dirs) && d !in dirs ==> forall q :: q in files ==> dirOf(q) != d
      {
        assert order[..i + 1][..i] == order[..i];
        var d := order[i];
        if d == root {
          continue;
        }
        if IsEmpty(d, dirOf) {
          dirs := dirs - {d};
        }
      }
      assert order[..|order|] == order;
    }
  }

  /** `expected_files`: the normalised paths of the blocks. */
  function ExpectedFiles(parsed: seq<(string, string)>, norm: string -> string): (r: set<string>)
    ensures forall q :: q in r <==> exists k :: 0 <= k < |parsed| && norm(parsed[k].0) == q
  {
    if parsed == [] then {}
    else
      var front := parsed[..|parsed| - 1];
      var r := ExpectedFiles(front, norm) + {norm(parsed[|parsed| - 1].0)};
      assert forall k :: 0 <= k < |front| ==> front[k] == parsed[k];
      r
  }

  /** The files after the blocks are written one after the other. */
  function Written(files: map<string, string>, parsed: seq<(string, string)>, norm: string -> string): (r: map<string, string>)
    ensures r.Keys == files.Keys + ExpectedFiles(parsed, norm)
  {
    if parsed == [] then files
    else
      var last := parsed[|parsed| - 1];
      Written(files, parsed[..|parsed| - 1], norm)[norm(last.0) := last.1]
  }

  lemma WriteStep(files: map<string, string>, parsed: seq<(string, string)>, i: nat, norm: string -> string)
    requires i < |parsed|
    ensures Written(files, parsed[..i + 1], norm) == Written(files, parsed[..i], norm)[norm(parsed[i].0) := parsed[i].1]
    ensures ExpectedFiles(parsed[..i + 1], norm) == ExpectedFiles(parsed[..i], norm) + {norm(parsed[i].0)}
  {
    assert parsed[..i + 1][..i] == parsed[..i];
  }

  /** The block at `i` parses to the pair at `i`. */
  lemma ParseAt(text: string, i: nat)
    requires i < |Blocks(text)|
    ensures Parse(text)[i] == ParseBlock(Blocks(text)[i])
  {
  }

  /** A path named by a block holds the body of the last block naming it. */
  lemma {:induction false} WrittenLastWins(files: map<string, string>, parsed: seq<(string, string)>, norm: string -> string, k: nat)
    requires k < |parsed|
    requires forall j :: k < j < |parsed| ==> norm(parsed[j].0) != norm(parsed[k].0)
    ensures Written(files, parsed, norm)[norm(parsed[k].0)] == parsed[k].1
    decreases |parsed|
  {
    if k < |parsed| - 1 {
      var front := parsed[..|parsed| - 1];
      assert front[k] == parsed[k];
      WrittenLastWins(files, front, norm, k);
    }
  }

  /** The normalised paths the deletion loop removes. */
  function Doomed(listing: seq<string>, expected: set<string>, combined: string, norm: string -> string): (r: set<string>)
    ensures forall q :: q in r <==>
              (exists k :: 0 <= k < |listing| && norm(listing[k]) == q) && q !in expected && q != norm(combined)
  {
    if listing == [] then {}
    else
      var front := listing[..|listing| - 1];
      var full := norm(listing[|listing| - 1]);
      assert forall k :: 0 <= k < |front| ==> front[k] == listing[k];
      Doomed(front, expected, combined, norm) + (if full == norm(combined) || full in expected then {} else {full})
  }

  /** A directory that nothing in the tree lists as its parent. */
  predicate EmptyIn(d: string, files: map<string, string>, dirs: set<string>, dirOf: string -> string) {
    (forall q :: q in files ==> dirOf(q) != d) && (forall e :: e in dirs ==> dirOf(e) != d)
  }

  /** The directories left after the bottom-up walk `order`: each directory but the root is
      removed when it is empty at its turn. */
  function Pruned(files: map<string, string>, dirs: set<string>, order: seq<string>, root: string, dirOf: string -> string): (r: set<string>)
    ensures r <= dirs
    ensures root in r <==> root in dirs
    ensures forall d :: d in dirs && d !in r ==> d in order && d != root
    decreases |order|
  {
    if order == [] then dirs
    else
      var before := Pruned(files, dirs, order[..|order| - 1], root, dirOf);
      var d := order[|order| - 1];
      if d != root && EmptyIn(d, files, before, dirOf) then before - {d} else before
  }

  /** The ancestor `k` levels up. */
  function Up(x: string, dirOf: string -> string, k: nat): string {
    if k == 0 then x else dirOf(Up(x, dirOf, k - 1))
  }

  /** Nothing below `d` is a file or the root. */
  ghost predicate Barren(d: string, files: map<string, string>, root: string, dirOf: string -> string) {
    forall x, k: nat :: 1 <= k && (x in files || x == root) ==> Up(x, dirOf, k) != d
  }

  /** `os.walk(..., topdown=False)`: every directory's subdirectories are walked before it. */
  ghost predicate ChildrenFirst(order: seq<string>, dirs: set<string>, dirOf: string -> string) {
    forall i, e :: 0 <= i < |order| && e in dirs && dirOf(e) == order[i] ==> e in order[..i]
  }

  /** Walking further never brings a directory back. */
  lemma {:induction false} PrunedShrinks(files: map<string, string>, dirs: set<string>, order: seq<string>, root: string, dirOf: string -> string, j: nat, i: nat)
    requires j <= i <= |order|
    ensures Pruned(files, dirs, order[..i], root, dirOf) <= Pruned(files, dirs, order[..j], root, dirOf)
    decreases i
  {
    if j < i {
      assert order[..i][..i - 1] == order[..i - 1];
      PrunedShrinks(files, dirs, order, root, dirOf, j, i - 1);
    }
  }

  /** Bottom-up, a directory with no file and not the root anywhere below it is already
      empty at its turn, so it is removed then. */
  lemma {:induction false} BarrenRemovedAtTurn(files: map<string, string>, dirs: set<string>, order: seq<string>, root: string, dirOf: string -> string, i: nat)
    requires ChildrenFirst(order, dirs, dirOf)
    requires i < |order| && order[i] != root && Barren(order[i], files, root, dirOf)
    ensures order[i] !in Pruned(files, dirs, order[..i + 1], root, dirOf)
    decreases i
  {
    var d := order[i];
    var before := Pruned(files, dirs, order[..i], root, dirOf);
    assert order[..i + 1][..i] == order[..i];
    forall q | q in files
      ensures dirOf(q) != d
    {
      assert Up(q, dirOf, 1) == dirOf(q);
    }
    forall e | e in before
      ensures dirOf(e) != d
    {
      if dirOf(e) == d {
        assert e in order[..i];
        var j :| 0 <= j < i && order[j] == e;
        assert Up(root, dirOf, 1) == dirOf(root);
        forall x, k: nat | 1 <= k && (x in files || x == root)
          ensures Up(x, dirOf, k) != e
        {
          assert Up(x, dirOf, k + 1) == dirOf(Up(x, dirOf, k));
        }
        BarrenRemovedAtTurn(files, dirs, order, root, dirOf, j);
        PrunedShrinks(files, dirs, order, root, dirOf, j + 1, i);
        assert false;
      }
    }
    assert EmptyIn(d, files, before, dirOf);
  }

  /** After the whole bottom-up walk, no directory of it with nothing below it but other
      directories is left, except the root. */
  lemma BarrenRemoved(files: map<string, string>, dirs: set<string>, order: seq<string>, root: string, dirOf: string -> string)
    requires ChildrenFirst(order, dirs, dirOf)
    ensures forall d :: d in order && d != root && Barren(d, files, root, dirOf) ==> d !in Pruned(files, dirs, order, root, dirOf)
  {
    forall d | d in order && d != root && Barren(d, files, root, dirOf)
      ensures d !in Pruned(files, dirs, order, root, dirOf)
    {
      var i :| 0 <= i < |order| && order[i] == d;
      BarrenStaysRemoved(files, dirs, order, root, dirOf, i);
    }
  }

  /** A directory removed at its turn is still gone at the end of the walk. */
  lemma BarrenStaysRemoved(files: map<string, string>, dirs: set<string>, order: seq<string>, root: string, dirOf: string -> string, i: nat)
    requires ChildrenFirst(order, dirs, dirOf)
    requires i < |order| && order[i] != root && Barren(order[i], files, root, dirOf)
    ensures order[i] !in Pruned(files, dirs, order, root, dirOf)
  {
    BarrenRemovedAtTurn(files, dirs, order, root, dirOf, i);
    PrunedShrinks(files, dirs, order, root, dirOf, i + 1, |order|);
    assert order[..|order|] == order;
  }

  /** One more listed path adds itself to the removed paths unless it is expected or the
      combined file's. */
  lemma DoomedStep(listing: seq<string>, i: nat, expected: set<string>, combined: string, norm: string -> string)
    requires i < |listing|
    ensures var full := norm(listing[i]);
      Doomed(listing[..i + 1], expected, combined, norm)
        == Doomed(listing[..i], expected, combined, norm) + (if full == norm(combined) || full in expected then {} else {full})
  {
    assert listing[..i + 1][..i] == listing[..i];
  }
}
