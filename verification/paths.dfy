/** Storage object names. An attachment is stored under
    `<recipient>/<message id>/<filename>`, built by joining a two-element
    prefix with `Array.prototype.join('/')` and appending the filename. */
module Paths {
  import opened Outcomes

  /** How `Array.prototype.join` renders one element: `undefined` (a missing
      form field) becomes the empty string. */
  function Segment(element: Option<string>): string
  {
    match element
    case None => ""
    case Some(s) => s
  }

  /** `Array.prototype.join(separator)`. */
  function Join(elements: seq<Option<string>>, separator: string): (joined: string)
    ensures |elements| == 0 ==> joined == ""
    ensures |elements| > 0 ==>
              |Segment(elements[0])| <= |joined| && joined[..|Segment(elements[0])|] == Segment(elements[0])
    ensures |elements| > 0 ==>
              var last := Segment(elements[|elements| - 1]);
              |last| <= |joined| && joined[|joined| - |last|..] == last
    ensures |elements| == 2 ==> joined == Segment(elements[0]) + separator + Segment(elements[1])
    decreases |elements|
  {
    if |elements| == 0 then ""
    else if |elements| == 1 then Segment(elements[0])
    else
      var first := Segment(elements[0]);
      var rest := Join(elements[1..], separator);
      var joined := first + separator + rest;
      assert joined[..|first|] == first;
      assert elements[|elements| - 1] == elements[1..][|elements[1..]| - 1];
      assert joined[|joined| - |rest|..] == rest;
      joined
  }

  /** The object prefix shared by all attachments of one message: the
      `recipient` form field (possibly missing) and the message id. */
  function ObjectPrefix(recipient: Option<string>, messageId: string): (prefix: seq<Option<string>>)
    ensures Join(prefix, "/") == Segment(recipient) + "/" + messageId
  {
    var prefix := [recipient, Some(messageId)];
    assert prefix[1..] == [Some(messageId)];
    prefix
  }

  /** The destination of one upload: the joined prefix, a slash, the filename. */
  function Destination(prefix: seq<Option<string>>, filename: string): (d: string)
    ensures |prefix| == 2 ==> d == Segment(prefix[0]) + "/" + Segment(prefix[1]) + "/" + filename
    ensures |filename| <= |d| && d[|d| - |filename|..] == filename
  {
    Join(prefix, "/") + "/" + filename
  }

  /** The destination of an attachment of the message `messageId`. A missing
      recipient is not rejected: the path then starts with an empty segment. */
  function ObjectPath(recipient: Option<string>, messageId: string, filename: string): (path: string)
    ensures path == Segment(recipient) + "/" + messageId + "/" + filename
    ensures recipient.None? ==> path[..1] == "/"
    ensures |path| == |Segment(recipient)| + |messageId| + |filename| + 2
  {
    Destination(ObjectPrefix(recipient, messageId), filename)
  }

  /** Splits `s` at its first slash, or gives None when it has none. */
  function SplitFirst(s: string): (r: Option<(string, string)>)
    ensures r.None? <==> '/' !in s
    ensures r.Some? ==> s == r.value.0 + "/" + r.value.1 && '/' !in r.value.0
    decreases |s|
  {
    if |s| == 0 then None
    else if s[0] == '/' then Some(("", s[1..]))
    else
      match SplitFirst(s[1..])
      case None => None
      case Some((head, tail)) =>
        assert s == [s[0]] + s[1..];
        Some(([s[0]] + head, tail))
  }

  /** Reads an object path back as (recipient segment, message id, filename):
      the first two slashes delimit the first two segments, and everything
      after the second slash is the filename. */
  function ParseObjectPath(path: string): Option<(string, string, string)>
  {
    match SplitFirst(path)
    case None => None
    case Some((recipient, rest)) =>
      match SplitFirst(rest)
      case None => None
      case Some((messageId, filename)) => Some((recipient, messageId, filename))
  }

  lemma {:induction false} SplitFirstAtSeparator(head: string, tail: string)
    requires '/' !in head
    ensures SplitFirst(head + "/" + tail) == Some((head, tail))
    decreases |head|
  {
    var s := head + "/" + tail;
    if |head| == 0 {
      assert s == "/" + tail;
      assert s[1..] == tail;
    } else {
      assert s[0] == head[0];
      assert s[1..] == head[1..] + "/" + tail;
      SplitFirstAtSeparator(head[1..], tail);
      assert [head[0]] + head[1..] == head;
    }
  }

  /** Reading a path back recovers its parts, provided the recipient and the
      message id contain no slash (a filename may). */
  lemma ObjectPathRoundTrip(recipient: Option<string>, messageId: string, filename: string)
    requires '/' !in Segment(recipient) && '/' !in messageId
    ensures ParseObjectPath(ObjectPath(recipient, messageId, filename))
         == Some((Segment(recipient), messageId, filename))
  {
    var rest := messageId + "/" + filename;
    assert ObjectPath(recipient, messageId, filename) == Segment(recipient) + "/" + rest;
    SplitFirstAtSeparator(Segment(recipient), rest);
    SplitFirstAtSeparator(messageId, filename);
  }

  /** A path that reads back is its three parts joined by slashes. */
  lemma ParsedPathShape(path: string, recipient: string, messageId: string, filename: string)
    requires ParseObjectPath(path) == Some((recipient, messageId, filename))
    ensures '/' !in recipient && '/' !in messageId
    ensures path == recipient + "/" + messageId + "/" + filename
  {
    var (r, rest) := SplitFirst(path).value;
    assert path == r + "/" + rest;
    assert rest == messageId + "/" + filename;
    assert r + "/" + (messageId + "/" + filename) == recipient + "/" + messageId + "/" + filename;
  }

  /** Every path that reads back is the object path of what it reads as. */
  lemma ParseObjectPathSound(path: string)
    ensures ParseObjectPath(path).Some? ==>
              var (recipient, messageId, filename) := ParseObjectPath(path).value;
              && '/' !in recipient && '/' !in messageId
              && ObjectPath(Some(recipient), messageId, filename) == path
  {
    if ParseObjectPath(path).Some? {
      var (recipient, messageId, filename) := ParseObjectPath(path).value;
      ParsedPathShape(path, recipient, messageId, filename);
    }
  }
}
