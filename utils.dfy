/** File-name helpers of src/utils.ts. */
module Utils {

  /** `s.split(sep)` for a one-character separator: the maximal runs between
      separators, always at least one (possibly empty) part. */
  function Split(s: string, sep: char): (parts: seq<string>)
    ensures |parts| >= 1
    ensures forall i :: 0 <= i < |parts| ==> sep !in parts[i]
    ensures Join(parts, sep) == s
  {
    if s == [] then [[]]
    else
      var rest := Split(s[1..], sep);
      if s[0] == sep then
        assert s == [sep] + s[1..];
        [[]] + rest
      else
        var parts := [[s[0]] + rest[0]] + rest[1..];
        assert parts[1..] == rest[1..];
        assert s == [s[0]] + s[1..];
        parts
  }

  /** `parts.join(sep)`: the inverse of `Split`. */
  function Join(parts: seq<string>, sep: char): string
    requires |parts| >= 1
  {
    if |parts| == 1 then parts[0] else parts[0] + [sep] + Join(parts[1..], sep)
  }

  /** `getFileName`: the first part of the name split at '.'; `shift()` is
      always defined because a split yields at least one part. */
  function FileName(name: string): (r: string)
    ensures r <= name
    ensures '.' !in r
    ensures |r| == |name| || name[|r|] == '.'
  {
    var parts := Split(name, '.');
    if |parts| == 1 then
      parts[0]
    else
      assert name == parts[0] + ['.'] + Join(parts[1..], '.');
      parts[0]
  }

  /** The base name is the longest '.'-free prefix: any prefix without a '.'
      is a prefix of it. */
  lemma FileNameIsLongest(name: string, p: string)
    requires p <= name && '.' !in p
    ensures p <= FileName(name)
  {
  }

  /** A name with no '.' is its own base name. */
  lemma FileNameOfPlainName(name: string)
    requires '.' !in name
    ensures FileName(name) == name
  {
    FileNameIsLongest(name, name);
  }

  /** `FileName(base + ext)` is `base` whenever `base` has no '.' and `ext`
      starts with one. */
  lemma FileNameStripsExtension(base: string, ext: string)
    requires '.' !in base && |ext| > 0 && ext[0] == '.'
    ensures FileName(base + ext) == base
  {
    var name := base + ext;
    FileNameIsLongest(name, base);
    assert name[|base|] == '.';
  }

  /** `s.endsWith(suffix)`, case-sensitive. */
  predicate EndsWith(s: string, suffix: string)
  {
    |suffix| <= |s| && s[|s| - |suffix|..] == suffix
  }

  /** `isJsonFile`. A JSON name has a '.' five characters from its end, so
      `getFileName` of it is shorter than the name. */
  predicate IsJsonFile(name: string)
    ensures IsJsonFile(name) ==> |name| >= 5 && name[|name| - 5] == '.'
  {
    EndsWith(name, ".json")
  }

  /** A name is a JSON file name exactly when it is some string followed by
      ".json". */
  lemma IsJsonFileIff(name: string)
    ensures IsJsonFile(name) <==> exists s: string :: name == s + ".json"
  {
    if IsJsonFile(name) {
      var s := name[..|name| - 5];
      assert name == s + ".json";
    } else {
      forall s: string | name == s + ".json"
        ensures false
      {
      }
    }
  }

  /** Appending ".json" to any string yields a JSON file name. */
  lemma JsonSuffixAccepted(s: string)
    ensures IsJsonFile(s + ".json")
  {
    assert (s + ".json")[|s|..] == ".json";
  }

  /** The suffix test is exact: ".json" alone passes, upper case and other
      extensions do not. */
  lemma IsJsonFileExamples()
    ensures IsJsonFile(".json")
    ensures IsJsonFile("board.json")
    ensures !IsJsonFile("a.JSON")
    ensures !IsJsonFile("json")
    ensures !IsJsonFile("board.svg")
    ensures !IsJsonFile("board.png")
  {
    assert "board.json"[5..] == ".json";
    assert "a.JSON"[1..] != ".json" by { assert "a.JSON"[1..][1] == 'J'; }
    assert "board.svg"[4..] != ".json" by { assert "board.svg"[4..][0] == 'd'; }
    assert "board.png"[4..] != ".json" by { assert "board.png"[4..][0] == 'd'; }
  }
}
