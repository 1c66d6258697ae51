/** The `key=value` line format of the progress report stream. The three adapters that
    read such a stream each carry an identical copy of this parser. */
module KVLine {
  import opened Base

  /** Go's `(key, value, err)` triple: on failure both strings are empty. */
  datatype Parsed = Parsed(key: string, value: string, failed: bool)

  /** Split `line` at its first `=`. A line without `=` is an error. */
  function ParseKVLine(line: string): (r: Parsed)
    ensures r.failed <==> '=' !in line
    ensures r.failed ==> r.key == "" && r.value == ""
    ensures !r.failed ==> r.key + "=" + r.value == line && '=' !in r.key
  {
    match IndexOf(line, '=')
    case None => Parsed("", "", true)
    case Some(i) =>
      assert line == line[..i] + "=" + line[i + 1..];
      Parsed(line[..i], line[i + 1..], false)
  }

  /** The split is the only one with an `=`-free key: whatever follows the first `=`,
      more `=` signs included, is the value. */
  lemma ParseKVLineUnique(line: string, k: string, v: string)
    requires '=' !in k && k + "=" + v == line
    ensures ParseKVLine(line) == Parsed(k, v, false)
  {
    assert line == k + ['='] + v;
    IndexOfSplit(k, '=', v);
  }

  /** Writing a pair and reading it back gives the pair, for any key without `=`
      (the empty key included) and any value. */
  lemma FormatParseRoundTrip(k: string, v: string)
    requires '=' !in k
    ensures ParseKVLine(k + "=" + v) == Parsed(k, v, false)
  {
    ParseKVLineUnique(k + "=" + v, k, v);
  }
}
