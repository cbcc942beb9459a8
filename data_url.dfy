/**
 * The payload extraction inside `toBase64` (utils/fileUtils.ts): the browser's
 * FileReader produces a data URL such as "data:image/jpeg;base64,LzlqLz...",
 * and the code keeps `result.split(',')[1]`, rejecting the read when that
 * field is missing or empty. The base64 encoding itself is the browser's.
 */
module DataUrl {
  import opened Wrappers

  /** The message of the Error the promise is rejected with. */
  const ReadError: string := "Failed to read base64 data from file."

  /** JavaScript's `s.split(',')`: the comma-free fields between the commas, never none. */
  function Split(s: string): (fields: seq<string>)
    ensures |fields| >= 1
    ensures forall k :: 0 <= k < |fields| ==> ',' !in fields[k]
    decreases |s|
  {
    if s == [] then [""]
    else if s[0] == ',' then [""] + Split(s[1..])
    else
      var rest := Split(s[1..]);
      [[s[0]] + rest[0]] + rest[1..]
  }

  /** The fields put back together with a comma between each two. */
  function Join(fields: seq<string>): string
    requires |fields| >= 1
  {
    if |fields| == 1 then fields[0] else fields[0] + "," + Join(fields[1..])
  }

  /** `result.split(',')[1]`, kept only when it is truthy (defined and non-empty). */
  function Payload(result: string): (data: Option<string>)
    ensures data.Some? ==> data.value != [] && ',' !in data.value
  {
    var fields := Split(result);
    if |fields| >= 2 && fields[1] != "" then Some(fields[1]) else None
  }

  /** Splitting loses nothing: joining the fields gives back the string. */
  lemma {:induction false} JoinSplit(s: string)
    ensures Join(Split(s)) == s
    decreases |s|
  {
    if s == [] {
    } else if s[0] == ',' {
      JoinSplit(s[1..]);
      assert s == [','] + s[1..];
    } else {
      var rest := Split(s[1..]);
      JoinSplit(s[1..]);
      if |rest| == 1 {
        assert s == [s[0]] + s[1..];
      } else {
        assert Join(rest) == rest[0] + "," + Join(rest[1..]);
        assert Split(s)[1..] == rest[1..];
        assert s == [s[0]] + s[1..];
      }
    }
  }

  /** A string without a comma is a single field. */
  lemma {:induction false} SplitNoComma(a: string)
    requires ',' !in a
    ensures Split(a) == [a]
    decreases |a|
  {
    if a != [] {
      SplitNoComma(a[1..]);
      assert a == [a[0]] + a[1..];
    }
  }

  /** A comma-free prefix followed by a comma is the first field. */
  lemma {:induction false} SplitFirstField(a: string, b: string)
    requires ',' !in a
    ensures Split(a + "," + b) == [a] + Split(b)
    decreases |a|
  {
    var s := a + "," + b;
    if a == [] {
      assert s[1..] == b;
    } else {
      assert s[1..] == a[1..] + "," + b;
      SplitFirstField(a[1..], b);
      assert [s[0]] + a[1..] == a;
    }
  }

  /** Joining comma-free fields and splitting again gives back the fields. */
  lemma {:induction false} SplitJoin(fields: seq<string>)
    requires |fields| >= 1
    requires forall k :: 0 <= k < |fields| ==> ',' !in fields[k]
    ensures Split(Join(fields)) == fields
    decreases |fields|
  {
    if |fields| == 1 {
      SplitNoComma(fields[0]);
    } else {
      SplitJoin(fields[1..]);
      SplitFirstField(fields[0], Join(fields[1..]));
      assert fields == [fields[0]] + fields[1..];
    }
  }

  /**
   * Every string is the comma-join of comma-free fields; the payload is the
   * second of them, present only when there is one and it is not empty.
   */
  lemma PayloadIsSecondField(fields: seq<string>)
    requires |fields| >= 1
    requires forall k :: 0 <= k < |fields| ==> ',' !in fields[k]
    ensures Payload(Join(fields)) == if |fields| >= 2 && fields[1] != "" then Some(fields[1]) else None
  {
    SplitJoin(fields);
  }

  /** The data URL of a non-empty file yields exactly its base64 text. */
  lemma PayloadOfDataUrl(mimeType: string, base64: string)
    requires ',' !in mimeType && ',' !in base64 && base64 != ""
    ensures Payload("data:" + mimeType + ";base64," + base64) == Some(base64)
  {
    var header := "data:" + mimeType + ";base64";
    assert ',' !in header;
    assert Join([header, base64]) == "data:" + mimeType + ";base64," + base64;
    PayloadIsSecondField([header, base64]);
  }

  /** A result without any comma is rejected. */
  lemma NoCommaRejected(result: string)
    requires ',' !in result
    ensures Payload(result) == None
  {
    SplitNoComma(result);
  }

  /**
   * An empty field after the first comma is rejected, because '' is falsy;
   * this covers the data URL of an empty file, which ends in the comma.
   */
  lemma EmptyFieldRejected(header: string, rest: string)
    requires ',' !in header
    requires rest == "" || rest[0] == ','
    ensures Payload(header + "," + rest) == None
  {
    SplitFirstField(header, rest);
    if rest != "" {
      SplitFirstField("", rest[1..]);
      assert "" + "," + rest[1..] == rest;
    }
  }
}
