/** The output file of a winning round (wincount.go:144-152). The source
    opens it with `O_CREATE|O_RDWR` and no `O_TRUNC`, so `f.Write(b)` lays
    `b` over the start of whatever the file already held. */
module OutFile {
  import opened Types

  /** The file's content after writing `b` at offset 0 of a file that held `before`. */
  function OverwriteFromStart(before: seq<Byte>, b: seq<Byte>): (r: seq<Byte>)
    ensures |r| == if |b| >= |before| then |b| else |before|
    ensures r[..|b|] == b
    ensures |b| < |before| ==> r[|b|..] == before[|b|..]
  {
    if |b| >= |before| then b else b + before[|b|..]
  }

  /** Whenever the new record is shorter than what the file held, the file
      does not end up holding the record: a tail of the earlier bytes remains. */
  lemma StaleTailSurvives(before: seq<Byte>, b: seq<Byte>)
    requires |b| < |before|
    ensures OverwriteFromStart(before, b) != b
    ensures OverwriteFromStart(before, b)[|b|..] == before[|b|..]
  {
  }

  /** For instance `{}}` where the record `{}` was meant: a second JSON
      value after the first, which `json.Unmarshal` refuses. */
  lemma StaleTailExample()
    ensures OverwriteFromStart(['{' as Byte, '}' as Byte, '}' as Byte], ['{' as Byte, '}' as Byte])
         == ['{' as Byte, '}' as Byte, '}' as Byte]
  {
  }
}
