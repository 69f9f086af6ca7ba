/** The message record: which submitted form fields are kept, how the two
    numeric ones are coerced, and which are stored unindexed. */
module Message {

  /** The Mailgun parsed-message parameters kept in the message record. */
  const IncludeFields: seq<string> := [
    "recipient", "sender", "from", "subject", "body-plain", "stripped-text",
    "stripped-signature", "body-html", "stripped-html", "attachment-count",
    "timestamp", "token", "signature", "message-headers", "content-id-map"
  ]

  /** The free-text fields the record store is told not to index. */
  const ExcludeFromIndexes: seq<string> := [
    "stripped-text", "stripped-html", "stripped-signature", "body-html",
    "body-plain", "message-headers", "content-id-map"
  ]

  /** An abstraction of the JavaScript number `parseInt` returns: a finite
      integral value, or NaN. Infinity, -0 and the rounding of doubles are
      not represented; `parseInt` itself stays uninterpreted. */
  datatype Num = Finite(value: int) | NaN

  /** A property value of the message record. A JavaScript `Date` is
      represented by its time value. */
  datatype Value = Text(text: string) | Number(number: Num) | Date(time: Num)

  /** The two JavaScript routines the projection calls and this model leaves
      uninterpreted: `parseInt`, and the conversion of a timestamp to a date. */
  datatype Coercions = Coercions(parseInt: string -> Num, toDate: Num -> Num)

  /** The fields whose value the projection rewrites or creates. */
  predicate Coerced(name: string)
  {
    name == "timestamp" || name == "attachment-count" || name == "date"
  }

  /** Whether `name` is on the allow-list. */
  predicate Allowed(name: string)
  {
    name in IncludeFields
  }

  /** Keeps the entries of `fields` whose name is allowed, as text values. */
  function FilterProperties(fields: map<string, string>): (kept: map<string, Value>)
    ensures forall k :: k in kept <==> k in fields && Allowed(k)
    ensures forall k :: k in kept ==> kept[k] == Text(fields[k])
  {
    map k | k in fields && Allowed(k) :: Text(fields[k])
  }

  /** Replaces a present `timestamp` by its parsed value and adds the date it
      denotes; leaves `data` alone when there is none. */
  function CoerceTimestamp(data: map<string, Value>, c: Coercions): (r: map<string, Value>)
    requires "timestamp" in data ==> data["timestamp"].Text?
    ensures r.Keys == if "timestamp" in data then data.Keys + {"date"} else data.Keys
    ensures "timestamp" in data ==>
              var ts := c.parseInt(data["timestamp"].text);
              r["timestamp"] == Number(ts) && r["date"] == Date(c.toDate(ts))
    ensures forall k :: k in data && k != "timestamp" && k != "date" ==> r[k] == data[k]
    ensures "timestamp" !in data ==> r == data
  {
    if "timestamp" in data then
      var ts := c.parseInt(data["timestamp"].text);
      data["timestamp" := Number(ts)]["date" := Date(c.toDate(ts))]
    else data
  }

  /** Replaces a present `attachment-count` by its parsed value. */
  function CoerceAttachmentCount(data: map<string, Value>, c: Coercions): (r: map<string, Value>)
    requires "attachment-count" in data ==> data["attachment-count"].Text?
    ensures r.Keys == data.Keys
    ensures "attachment-count" in data ==>
              r["attachment-count"] == Number(c.parseInt(data["attachment-count"].text))
    ensures forall k :: k in data && k != "attachment-count" ==> r[k] == data[k]
  {
    if "attachment-count" in data then
      data["attachment-count" := Number(c.parseInt(data["attachment-count"].text))]
    else data
  }

  /** The data of the message record built from the decoded form fields. */
  function ProjectMessage(fields: map<string, string>, c: Coercions): (data: map<string, Value>)
    // only allow-listed names, plus a date derived from the timestamp
    ensures forall k :: k in data ==> Allowed(k) || k == "date"
    ensures forall k :: Allowed(k) ==> (k in data <==> k in fields)
    ensures "date" in data <==> "timestamp" in fields
    // the two numeric fields are parsed, and the date follows the parsed timestamp
    ensures "timestamp" in fields ==>
              var ts := c.parseInt(fields["timestamp"]);
              "timestamp" in data && data["timestamp"] == Number(ts) && data["date"] == Date(c.toDate(ts))
    ensures "attachment-count" in fields ==>
              && "attachment-count" in data
              && data["attachment-count"] == Number(c.parseInt(fields["attachment-count"]))
    // everything else keeps the submitted text
    ensures forall k :: k in data && !Coerced(k) ==> k in fields && data[k] == Text(fields[k])
  {
    assert Allowed("timestamp") && Allowed("attachment-count") && !Allowed("date");
    var kept := FilterProperties(fields);
    var stamped := CoerceTimestamp(kept, c);
    CoerceAttachmentCount(stamped, c)
  }

  /** Names the record store is told not to index are all projected names,
      and their values are never coerced: they stay the submitted text. */
  lemma NonIndexedFieldsAreProjectedText(fields: map<string, string>, c: Coercions)
    ensures forall n :: n in ExcludeFromIndexes ==> Allowed(n) && !Coerced(n)
    ensures forall n :: n in ExcludeFromIndexes && n in fields ==>
              n in ProjectMessage(fields, c) && ProjectMessage(fields, c)[n] == Text(fields[n])
  {
  }

  /** Fields outside the allow-list are dropped silently: adding them to a
      submission changes nothing in the record. */
  lemma UnknownFieldsIgnored(fields: map<string, string>, extra: map<string, string>, c: Coercions)
    requires forall k :: k in extra ==> !Allowed(k)
    ensures ProjectMessage(fields + extra, c) == ProjectMessage(fields, c)
  {
  }
}
