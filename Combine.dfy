/** The combining script (recursive.py): every file under the source tree, in the order the
    directory walk gives them, is written to one text file as a record made of a header line
    naming its path, its contents (or a note that it could not be read) and a blank line.
    Files with certain names, the combined file's own name among them, are left out. */
module Combine {
  import opened Text

  /** The record delimiter the header starts with, the end of the header line, and the
      separator written after the contents. */
  const Delimiter: string := "----- "
  const HeaderEnd: string := " -----\n"
  const Separator: string := "\n\n"

  const OutputName: string := "all_files_combined.txt"

  /** The names never written: four project files, the lock files, and the output itself. */
  const SkipFiles: set<string> :=
    {".gitignore", ".all-contributorsrc", "CONTRIBUTING.md", "package-lock.json", "yarn.lock", OutputName}

  /** What reading a file gives: its text, or the message of the exception raised. */
  datatype FileRead = Contents(text: string) | Unreadable(error: string)

  /** A file as the walk lists it: its directory, its name, and what reading it gives. */
  datatype WalkFile = WalkFile(dir: string, name: string, read: FileRead)

  /** What is written between the header and the separator. */
  function Body(read: FileRead): (r: string)
    ensures read.Contents? ==> r == read.text
    ensures read.Unreadable? ==> r == "[Could not read file: " + read.error + "]\n"
  {
    match read
    case Contents(text) => text
    case Unreadable(error) => "[Could not read file: " + error + "]\n"
  }

  /** One record: the header line, the body and the separator. */
  function Record(path: string, body: string): string {
    Delimiter + path + HeaderEnd + body + Separator
  }

  /** The (path, body) pairs written, in walk order; `join` is `os.path.join`. */
  function Included(walk: seq<WalkFile>, skip: set<string>, join: (string, string) -> string): (r: seq<(string, string)>)
    ensures |r| <= |walk|
    ensures forall k :: 0 <= k < |r| ==>
              exists j :: 0 <= j < |walk| && walk[j].name !in skip
                          && r[k] == (join(walk[j].dir, walk[j].name), Body(walk[j].read))
    ensures (forall j :: 0 <= j < |walk| ==> walk[j].name in skip) ==> r == []
    decreases |walk|
  {
    if walk == [] then []
    else
      var front := Included(walk[..|walk| - 1], skip, join);
      var f := walk[|walk| - 1];
      if f.name in skip then front
      else front + [(join(f.dir, f.name), Body(f.read))]
  }

  /** The text of a run of records. */
  function Archive(entries: seq<(string, string)>): string {
    if entries == [] then "" else Record(entries[0].0, entries[0].1) + Archive(entries[1..])
  }

  /** Adding a record at the end adds its text at the end. */
  lemma {:induction false} ArchiveSnoc(entries: seq<(string, string)>, path: string, body: string)
    ensures Archive(entries + [(path, body)]) == Archive(entries) + Record(path, body)
    decreases |entries|
  {
    if entries == [] {
      assert entries + [(path, body)] == [(path, body)];
    } else {
      assert (entries + [(path, body)])[1..] == entries[1..] + [(path, body)];
      ArchiveSnoc(entries[1..], path, body);
    }
  }

  /** The writing loop: for each file of the walk not skipped, the header, then the text
      or the note, then the separator. */
  method CombineFiles(walk: seq<WalkFile>, skip: set<string>, join: (string, string) -> string) returns (out: string)
    ensures out == Archive(Included(walk, skip, join))
  {
    out := "";
    for i := 0 to |walk|
      invariant out == Archive(Included(walk[..i], skip, join))
    {
      IncludedStep(walk, i, skip, join);
      var f := walk[i];
      if f.name in skip {
        continue;
      }
      ghost var before := out;
      var path := join(f.dir, f.name);
      out := out + Delimiter + path + HeaderEnd;
      out := out + Body(f.read);
      out := out + Separator;
      RecordAppended(before, path, Body(f.read));
      ArchiveSnoc(Included(walk[..i], skip, join), path, Body(f.read));
    }
    assert walk[..|walk|] == walk;
  }

  lemma IncludedStep(walk: seq<WalkFile>, i: nat, skip: set<string>, join: (string, string) -> string)
    requires i < |walk|
    ensures var f := walk[i];
      Included(walk[..i + 1], skip, join)
      == if f.name in skip then Included(walk[..i], skip, join)
         else Included(walk[..i], skip, join) + [(join(f.dir, f.name), Body(f.read))]
  {
    assert walk[..i + 1][..i] == walk[..i];
  }

  lemma RecordAppended(before: string, path: string, body: string)
    ensures before + Delimiter + path + HeaderEnd + body + Separator == before + Record(path, body)
  {
  }
}
