/** The history directory: which session ids are accepted, what their files are called, and the
    file operations a save is made of (history.py). */
module SessionFiles {

  predicate IdChar(c: char) {
    'A' <= c <= 'Z' || 'a' <= c <= 'z' || '0' <= c <= '9' || c == '.' || c == '_' || c == '-'
  }

  predicate Whitelisted(id: string) {
    1 <= |id| <= 128 && forall i :: 0 <= i < |id| ==> IdChar(id[i])
  }

  /** The ids the pattern matches: its end anchor also lets one final newline through. */
  predicate Accepted(id: string) {
    Whitelisted(id) || (|id| > 0 && id[|id| - 1] == '\n' && Whitelisted(id[..|id| - 1]))
  }

  /** 1 to 128 letters, digits, dots, underscores and dashes. */
  predicate IsPlain(core: string) {
    && 1 <= |core| <= 128
    && forall i :: 0 <= i < |core| ==>
         || 'A' <= core[i] <= 'Z' || 'a' <= core[i] <= 'z' || '0' <= core[i] <= '9'
         || core[i] == '.' || core[i] == '_' || core[i] == '-'
  }

  /** An accepted id is a plain one, with or without one newline after it. */
  lemma AcceptedIff(id: string)
    ensures Accepted(id) <==> exists core :: IsPlain(core) && (id == core || id == core + "\n")
  {
    if Accepted(id) {
      var core := if Whitelisted(id) then id else id[..|id| - 1];
      assert IsPlain(core) && (id == core || id == core + "\n");
    }
    if core :| IsPlain(core) && (id == core || id == core + "\n") {
      assert Whitelisted(core);
      if id != core { assert id[..|id| - 1] == core; }
    }
  }

  lemma AcceptedChars(id: string, i: nat)
    requires Accepted(id) && i < |id|
    ensures id[i] == '\n' || IdChar(id[i])
  {
    if !Whitelisted(id) && i < |id| - 1 { assert id[i] == id[..|id| - 1][i]; }
  }

  function PathName(id: string): string {
    id + ".json"
  }

  /** A temporary name; the system picks `middle` so that the name is free. */
  function TempName(id: string, middle: string): string {
    "." + id + "." + middle + ".tmp"
  }

  /** Temporary files never take the place of a session file, different ids have different
      files, and no accepted id leaves the directory. */
  lemma NamesAreSafe(id: string, id': string, middle: string)
    ensures TempName(id, middle) != PathName(id')
    ensures PathName(id) == PathName(id') <==> id == id'
    ensures Accepted(id) ==> '/' !in PathName(id) && PathName(id) != "." && PathName(id) != ".."
  {
    var t, p := TempName(id, middle), PathName(id');
    assert t[|t| - 1] == 'p' && p[|p| - 1] == 'n';
    if PathName(id) == PathName(id') {
      assert |id| == |id'|;
      assert id == PathName(id)[..|id|] == PathName(id')[..|id'|] == id';
    }
    if Accepted(id) {
      var path := PathName(id);
      forall i | 0 <= i < |path| ensures path[i] != '/' {
        if i < |id| { AcceptedChars(id, i); } else { assert path[i] == ".json"[i - |id|]; }
      }
      assert |path| >= 6;
    }
  }

  /** A file: its text, and whether the text is known to have reached the disk. */
  datatype File = File(text: string, synced: bool)

  type Files = map<string, File>

  function Written(files: Files, temp: string, text: string): Files {
    files[temp := File(text, false)]
  }

  function Synced(files: Files, temp: string): Files
    requires temp in files
  {
    files[temp := files[temp].(synced := true)]
  }

  /** The rename: the temporary file takes the place of the session file in one step. */
  function Replaced(files: Files, temp: string, path: string): Files
    requires temp in files
  {
    (files - {temp})[path := files[temp]]
  }

  function Unlinked(files: Files, temp: string): Files {
    files - {temp}
  }

  /** The last entries of a list, at most `n` of them. */
  function Last<T>(n: nat, xs: seq<T>): (r: seq<T>)
    ensures |r| == if |xs| > n then n else |xs|
    ensures forall i :: 0 <= i < |r| ==> r[i] == xs[|xs| - |r| + i]
  {
    if |xs| > n then xs[|xs| - n..] else xs
  }

  /** Trimming at every step is trimming once at the end. */
  lemma LastOfLast<T>(n: nat, xs: seq<T>, ys: seq<T>)
    ensures Last(n, Last(n, xs) + ys) == Last(n, xs + ys)
  {
  }
}
