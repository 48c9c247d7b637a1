/**
 * `initMapFromFile`: turning the lines of a flat key=value file into a store.
 * The file system is an input: a path missing from `Disk` is one that cannot
 * be opened.
 */
module ConfParse {
  import opened Wrappers
  import opened ConfErrors
  import opened GoStrings

  /**
   * An openable file as the line scanner sees it: the lines it delivers, and
   * whether it then stopped with an error instead of at end of file.
   */
  datatype FileContents = FileContents(lines: seq<string>, readError: Option<ReadFailure>)

  type Disk = map<string, FileContents>

  type Store = map<string, string>

  /** A line is accepted when `strings.Split(line, "=")` gives exactly two tokens. */
  predicate WellFormedLine(line: string)
  {
    |Split(line, '=')| == 2
  }

  function KeyOf(line: string): string
    requires WellFormedLine(line)
  {
    Split(line, '=')[0]
  }

  function ValueOf(line: string): string
    requires WellFormedLine(line)
  {
    Split(line, '=')[1]
  }

  /** The loop of `initMapFromFile` over the scanned lines, as a function of the lines read so far. */
  function ParseLines(lines: seq<string>): Result<Store, ConfError>
    decreases |lines|
  {
    if lines == [] then Success(map[])
    else
      var last := lines[|lines| - 1];
      match ParseLines(lines[..|lines| - 1])
      case Failure(e) => Failure(e)
      case Success(m) =>
        if WellFormedLine(last) then Success(m[KeyOf(last) := ValueOf(last)])
        else Failure(Parsing(last))
  }

  /** The whole of `initMapFromFile`: open, scan, then check the scanner's error. */
  function Load(path: string, disk: Disk): Result<Store, ConfError>
  {
    if path !in disk then Success(map[])
    else
      var file := disk[path];
      match ParseLines(file.lines)
      case Failure(e) => Failure(e)
      case Success(m) =>
        if file.readError.Some? then Failure(Unknown(file.readError.value, path)) else Success(m)
  }

  /** A line is well formed exactly when it holds one `=`; its key and value are the text before and after it. */
  lemma WellFormedLineShape(line: string)
    ensures WellFormedLine(line) <==> Count(line, '=') == 1
    ensures WellFormedLine(line) ==>
      line == KeyOf(line) + "=" + ValueOf(line) && '=' !in KeyOf(line) && '=' !in ValueOf(line)
  {
    if WellFormedLine(line) {
      SplitTwoPieces(line, '=');
    }
  }

  /** Any `k=v` with no `=` in `k` or `v` is accepted, with key `k` and value `v`. */
  lemma EntryLine(k: string, v: string)
    requires '=' !in k && '=' !in v
    ensures WellFormedLine(k + "=" + v) && KeyOf(k + "=" + v) == k && ValueOf(k + "=" + v) == v
  {
    SplitAroundOne(k, v, '=');
  }

  /** Parsing succeeds exactly when every line is well formed. */
  lemma {:induction false} ParseAcceptance(lines: seq<string>)
    ensures ParseLines(lines).Success? <==> forall i :: 0 <= i < |lines| ==> WellFormedLine(lines[i])
  {
    if lines != [] {
      var prefix := lines[..|lines| - 1];
      ParseAcceptance(prefix);
      assert forall i :: 0 <= i < |prefix| ==> prefix[i] == lines[i];
    }
  }

  /** A failing parse names the first offending line and yields no map at all. */
  lemma {:induction false} ParseFirstBadLine(lines: seq<string>, j: nat)
    requires j < |lines| && !WellFormedLine(lines[j])
    requires forall i :: 0 <= i < j ==> WellFormedLine(lines[i])
    ensures ParseLines(lines) == Failure(Parsing(lines[j]))
  {
    var prefix := lines[..|lines| - 1];
    if j == |lines| - 1 {
      ParseAcceptance(prefix);
    } else {
      ParseFirstBadLine(prefix, j);
    }
  }

  /** Once the lines read so far fail to parse, later lines change nothing: the early return. */
  lemma {:induction false} ParseFailureSticks(lines: seq<string>, n: nat)
    requires n <= |lines| && ParseLines(lines[..n]).Failure?
    ensures ParseLines(lines) == ParseLines(lines[..n])
    decreases |lines| - n
  {
    if n < |lines| {
      assert lines[..n + 1][..n] == lines[..n];
      ParseFailureSticks(lines, n + 1);
    } else {
      assert lines[..n] == lines;
    }
  }

  /** A successful parse holds the key of every line. */
  lemma {:induction false} ParseKeysComplete(lines: seq<string>, m: Store)
    requires ParseLines(lines) == Success(m)
    ensures forall i :: 0 <= i < |lines| ==> WellFormedLine(lines[i]) && KeyOf(lines[i]) in m
  {
    if lines != [] {
      var n := |lines| - 1;
      var prefix := lines[..n];
      var m0 := ParseLines(prefix).value;
      ParseKeysComplete(prefix, m0);
      assert m == m0[KeyOf(lines[n]) := ValueOf(lines[n])];
      assert forall i :: 0 <= i < n ==> prefix[i] == lines[i];
    }
  }

  /** Every key of a successful parse comes from some line. */
  lemma {:induction false} ParseKeysSound(lines: seq<string>, m: Store)
    requires ParseLines(lines) == Success(m)
    ensures forall k :: k in m ==>
      exists i :: 0 <= i < |lines| && WellFormedLine(lines[i]) && KeyOf(lines[i]) == k
  {
    if lines != [] {
      var n := |lines| - 1;
      var prefix := lines[..n];
      var m0 := ParseLines(prefix).value;
      ParseKeysSound(prefix, m0);
      assert m == m0[KeyOf(lines[n]) := ValueOf(lines[n])];
      forall k | k in m
        ensures exists i :: 0 <= i < |lines| && WellFormedLine(lines[i]) && KeyOf(lines[i]) == k
      {
        if k != KeyOf(lines[n]) {
          var i :| 0 <= i < n && WellFormedLine(prefix[i]) && KeyOf(prefix[i]) == k;
          assert lines[i] == prefix[i];
        }
      }
    }
  }

  /** In a successful parse a later line overwrites an earlier one: a key maps to the value on the last line that has it. */
  lemma {:induction false} ParseLastWins(lines: seq<string>, m: Store)
    requires ParseLines(lines) == Success(m)
    ensures forall i :: 0 <= i < |lines| && LastWithKey(lines, i) ==>
      KeyOf(lines[i]) in m && m[KeyOf(lines[i])] == ValueOf(lines[i])
  {
    ParseKeysComplete(lines, m);
    if lines != [] {
      var n := |lines| - 1;
      var prefix := lines[..n];
      var m0 := ParseLines(prefix).value;
      ParseLastWins(prefix, m0);
      ParseKeysComplete(prefix, m0);
      assert m == m0[KeyOf(lines[n]) := ValueOf(lines[n])];
      forall i | 0 <= i < |lines| && LastWithKey(lines, i)
        ensures KeyOf(lines[i]) in m && m[KeyOf(lines[i])] == ValueOf(lines[i])
      {
        if i < n {
          assert lines[i] == prefix[i];
          assert KeyOf(lines[n]) != KeyOf(lines[i]);
          forall j | i < j < n && WellFormedLine(prefix[j])
            ensures KeyOf(prefix[j]) != KeyOf(prefix[i])
          {
            assert prefix[j] == lines[j];
          }
          assert LastWithKey(prefix, i);
        }
      }
    }
  }

  /** Line `i` is well formed and no later well-formed line has the same key. */
  predicate LastWithKey(lines: seq<string>, i: nat)
    requires i < |lines|
  {
    WellFormedLine(lines[i]) &&
    forall j :: i < j < |lines| && WellFormedLine(lines[j]) ==> KeyOf(lines[j]) != KeyOf(lines[i])
  }

  /** A file that cannot be opened loads as the empty store, never as an error. */
  lemma MissingFileLoadsEmpty(path: string, disk: Disk)
    requires path !in disk
    ensures Load(path, disk) == Success(map[])
  {
  }

  /**
   * The outcomes of a load on an openable file: a bad line wins over a scan
   * error, a scan error wins over the parsed map.
   */
  lemma LoadOutcome(path: string, disk: Disk)
    requires path in disk
    ensures var file := disk[path];
      Load(path, disk) ==
        if exists i :: 0 <= i < |file.lines| && !WellFormedLine(file.lines[i]) then ParseLines(file.lines)
        else if file.readError.Some? then Failure(Unknown(file.readError.value, path))
        else ParseLines(file.lines)
  {
    ParseAcceptance(disk[path].lines);
  }

  /** A value may not contain `=`, and an empty line is not skipped: both are parse errors. */
  lemma RejectedLines()
    ensures !WellFormedLine("A=b=c") && !WellFormedLine("") && !WellFormedLine("KEY")
  {
    assert Count("A=b=c", '=') == 2;
  }

  /** Reading one more well-formed line adds (or overwrites) its entry. */
  lemma ParseSnoc(lines: seq<string>, line: string, m: Store)
    requires ParseLines(lines) == Success(m) && WellFormedLine(line)
    ensures ParseLines(lines + [line]) == Success(m[KeyOf(line) := ValueOf(line)])
  {
    assert (lines + [line])[..|lines|] == lines;
  }

  /** Three `k=v` lines parse into their three entries, a later key overwriting an earlier one. */
  lemma ThreeEntries(k1: string, v1: string, k2: string, v2: string, k3: string, v3: string)
    requires '=' !in k1 && '=' !in v1 && '=' !in k2 && '=' !in v2 && '=' !in k3 && '=' !in v3
    ensures ParseLines([k1 + "=" + v1, k2 + "=" + v2, k3 + "=" + v3]) == Success(map[k1 := v1][k2 := v2][k3 := v3])
  {
    var l1, l2, l3 := k1 + "=" + v1, k2 + "=" + v2, k3 + "=" + v3;
    EntryLine(k1, v1);
    EntryLine(k2, v2);
    EntryLine(k3, v3);
    ParseSnoc([], l1, map[]);
    assert [] + [l1] == [l1];
    ParseSnoc([l1], l2, map[k1 := v1]);
    assert [l1] + [l2] == [l1, l2];
    ParseSnoc([l1, l2], l3, map[k1 := v1][k2 := v2]);
    assert [l1, l2] + [l3] == [l1, l2, l3];
  }

  /** The three-line example file parses into the three entries. */
  lemma ExampleFile()
    ensures ParseLines(["HOST=localhost", "PORT=8080", "DEBUG=true"]) ==
      Success(map["HOST" := "localhost", "PORT" := "8080", "DEBUG" := "true"])
  {
    ThreeEntries("HOST", "localhost", "PORT", "8080", "DEBUG", "true");
    assert "HOST" + "=" + "localhost" == "HOST=localhost";
    assert "PORT" + "=" + "8080" == "PORT=8080";
    assert "DEBUG" + "=" + "true" == "DEBUG=true";
  }

  /** An empty line in the middle stops the load with a parse error for that line. */
  lemma EmptyLineInFile()
    ensures ParseLines(["A=1", "", "B=2"]) == Failure(Parsing(""))
  {
    EntryLine("A", "1");
    RejectedLines();
    ParseFirstBadLine(["A=1", "", "B=2"], 1);
  }

  /**
   * `initMapFromFile(path)`: scans the lines into `store`, returning at the
   * first line that does not split into two tokens, then reports a scanner
   * error if reading stopped early.
   */
  method InitMapFromFile(path: string, disk: Disk) returns (r: Result<Store, ConfError>)
    ensures r == Load(path, disk)
  {
    var store: Store := map[];
    if path !in disk {
      return Success(store);
    }
    var file := disk[path];
    var i := 0;
    while i < |file.lines|
      invariant 0 <= i <= |file.lines|
      invariant ParseLines(file.lines[..i]) == Success(store)
    {
      var line := file.lines[i];
      var tokens := Split(line, '=');
      assert file.lines[..i + 1][..i] == file.lines[..i];
      if |tokens| != 2 {
        ParseFailureSticks(file.lines, i + 1);
        return Failure(Parsing(line));
      }
      store := store[tokens[0] := tokens[1]];
      i := i + 1;
    }
    assert file.lines[..i] == file.lines;
    if file.readError.Some? {
      return Failure(Unknown(file.readError.value, path));
    }
    return Success(store);
  }
}
