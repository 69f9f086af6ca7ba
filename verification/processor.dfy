/** The email processor: one instance per inbound request. It owns the
    message's record-store key, saves the message record, uploads every
    attachment and links it back to the message, and settles the request. */
module Processor {
  import opened Outcomes
  import opened Message
  import opened Paths

  /** Injected configuration: the record kinds and the bucket name. */
  datatype Config = Config(emailEntity: string, attachmentEntity: string, bucketName: string)

  /** A record-store key path: alternating kinds and names, possibly ending
      in a bare kind whose id the store allocates on save. */
  type KeyPath = seq<string>

  /** The processor. The message id is the random identifier drawn once when
      the processor is built; it is a parameter of the model. */
  datatype EmailProcessor = EmailProcessor(config: Config, messageId: string)

  /** The key of the message record: its kind, then the message id. */
  function MessageKey(p: EmailProcessor): (k: KeyPath)
    ensures |k| == 2 && k[0] == p.config.emailEntity && k[1] == p.messageId
  {
    [p.config.emailEntity, p.messageId]
  }

  /** The message record as handed to the record store. */
  datatype MessageEntity = MessageEntity(key: KeyPath, excludeFromIndexes: seq<string>, data: map<string, Value>)

  /** The message record built from the decoded form fields. */
  function MessageRecord(p: EmailProcessor, fields: map<string, string>, c: Coercions): (e: MessageEntity)
    ensures e.key == MessageKey(p) && e.key[1] == p.messageId
    ensures e.excludeFromIndexes == ExcludeFromIndexes
    ensures e.data == ProjectMessage(fields, c)
    ensures forall n :: n in e.excludeFromIndexes ==> Allowed(n)
    ensures forall n :: n in e.excludeFromIndexes && n in fields ==>
              n in e.data && e.data[n] == Text(fields[n])
    ensures forall k :: k in e.data ==> Allowed(k) || k == "date"
  {
    NonIndexedFieldsAreProjectedText(fields, c);
    MessageEntity(MessageKey(p), ExcludeFromIndexes, ProjectMessage(fields, c))
  }

  /** One decoded file part: the local temporary file holding its content,
      and what the form declared about it. */
  datatype FilePart = FilePart(file: string, filename: string, encoding: string, mimeType: string)

  /** One enumerable property of the decoded `files` object, in `for..in`
      order; `own` is false for a property inherited through the prototype. */
  datatype FileProperty = FileProperty(name: string, own: bool, part: FilePart)

  /** What the decoder produces: the scalar fields and the file properties. */
  datatype Parts = Parts(fields: map<string, string>, files: seq<FileProperty>)

  /** The parts of the own properties of `files`, in enumeration order. */
  function OwnFiles(files: seq<FileProperty>): (parts: seq<FilePart>)
    ensures |parts| <= |files|
    ensures forall x :: x in parts ==> exists j :: 0 <= j < |files| && files[j].own && files[j].part == x
    ensures forall j :: 0 <= j < |files| && files[j].own ==> files[j].part in parts
    ensures (forall j :: 0 <= j < |files| ==> !files[j].own) ==> parts == []
    decreases |files|
  {
    if |files| == 0 then []
    else (if files[0].own then [files[0].part] else []) + OwnFiles(files[1..])
  }

  /** Enumeration order is kept: the own parts of two runs of properties
      are the own parts of the first followed by those of the second. */
  lemma {:induction false} OwnFilesInOrder(a: seq<FileProperty>, b: seq<FileProperty>)
    ensures OwnFiles(a + b) == OwnFiles(a) + OwnFiles(b)
    decreases |a|
  {
    if |a| == 0 {
      assert a + b == b;
    } else {
      assert (a + b)[0] == a[0];
      assert (a + b)[1..] == a[1..] + b;
      OwnFilesInOrder(a[1..], b);
    }
  }

  /** The storage metadata fetched after an upload. */
  datatype ObjectMetadata = ObjectMetadata(bucket: string, name: string, contentType: string, size: string, md5Hash: string)

  /** The data of an attachment record. */
  datatype AttachmentData = AttachmentData(
    bucket: string, name: string, filename: string,
    contentType: string, size: string, md5Hash: string)

  /** An attachment record as handed to the record store. */
  datatype AttachmentEntity = AttachmentEntity(key: KeyPath, data: AttachmentData)

  /** The attachment record for an uploaded file: keyed under the message's
      key, with the fetched metadata and the submitted filename. */
  function AttachmentRecord(p: EmailProcessor, filename: string, m: ObjectMetadata): (e: AttachmentEntity)
    ensures e.key == MessageKey(p) + [p.config.attachmentEntity]
    ensures e.data.filename == filename && e.data.name == m.name && e.data.bucket == m.bucket
    ensures e.data.contentType == m.contentType && e.data.size == m.size && e.data.md5Hash == m.md5Hash
  {
    AttachmentEntity(
      MessageKey(p) + [p.config.attachmentEntity],
      AttachmentData(m.bucket, m.name, filename, m.contentType, m.size, m.md5Hash))
  }

  /** How each external step of one attachment would settle if it were
      reached: the upload, the synchronous delete of the local file, the
      metadata fetch, and the save of the attachment record. */
  datatype AttachmentSteps = AttachmentSteps(
    upload: Outcome, unlink: Outcome, getMetadata: Result<ObjectMetadata>, save: Outcome)

  /** What one attachment attempt did. */
  datatype AttachmentRun = AttachmentRun(
    destination: string,
    outcome: Outcome,
    uploaded: bool,                     // the object exists in the bucket
    localFileDeleted: bool,
    record: Option<AttachmentEntity>,   // the record whose save was attempted
    recordSaved: bool)

  /** One attachment: upload, delete the local file, fetch the metadata, save
      the record. A failure of any of the first three rejects the attachment;
      a failure of the record save is logged and swallowed. */
  function SaveAttachment(p: EmailProcessor, part: FilePart, prefix: seq<Option<string>>, s: AttachmentSteps): (run: AttachmentRun)
    ensures run.destination == Destination(prefix, part.filename)
    ensures run.outcome.Resolved? <==> s.upload.Resolved? && s.unlink.Resolved? && s.getMetadata.Ok?
    ensures run.outcome.Rejected? ==>
              run.outcome.error == (if s.upload.Rejected? then s.upload.error
                                    else if s.unlink.Rejected? then s.unlink.error
                                    else s.getMetadata.error)
    // the local file goes only after a successful upload, and a failed upload leaves it
    ensures run.localFileDeleted ==> run.uploaded
    ensures run.uploaded <==> s.upload.Resolved?
    ensures run.localFileDeleted <==> s.upload.Resolved? && s.unlink.Resolved?
    // a record is attempted exactly when the attachment resolves
    ensures run.record.Some? <==> run.outcome.Resolved?
    ensures run.record.Some? ==>
              run.record.value == AttachmentRecord(p, part.filename, s.getMetadata.value)
    ensures run.recordSaved <==> run.record.Some? && s.save.Resolved?
  {
    var destination := Destination(prefix, part.filename);
    if s.upload.Rejected? then
      AttachmentRun(destination, s.upload, false, false, None, false)
    else if s.unlink.Rejected? then
      AttachmentRun(destination, s.unlink, true, false, None, false)
    else
      match s.getMetadata
      case Err(e) => AttachmentRun(destination, Rejected(e), true, true, None, false)
      case Ok(metadata) =>
        var record := AttachmentRecord(p, part.filename, metadata);
        AttachmentRun(destination, Resolved, true, true, Some(record), s.save.Resolved?)
  }

  /** Whether two step records agree on everything but the record save. */
  predicate SameExceptSave(s: AttachmentSteps, t: AttachmentSteps)
  {
    s.upload == t.upload && s.unlink == t.unlink && s.getMetadata == t.getMetadata
  }

  /** The outcome of an attachment does not depend on its record save. */
  lemma RecordSaveDoesNotAffectAttachment(p: EmailProcessor, part: FilePart, prefix: seq<Option<string>>, s: AttachmentSteps, t: AttachmentSteps)
    requires SameExceptSave(s, t)
    ensures SaveAttachment(p, part, prefix, s).outcome == SaveAttachment(p, part, prefix, t).outcome
  {
  }

  /** One attempt per own property of `files`, in enumeration order; `steps`
      holds the external outcomes of each attempt. */
  function SaveAttachments(p: EmailProcessor, files: seq<FileProperty>, prefix: seq<Option<string>>, steps: seq<AttachmentSteps>): (runs: seq<AttachmentRun>)
    requires |steps| == |OwnFiles(files)|
    ensures |runs| == |OwnFiles(files)|
    ensures forall i :: 0 <= i < |runs| ==> runs[i] == SaveAttachment(p, OwnFiles(files)[i], prefix, steps[i])
    decreases |files|
  {
    if |files| == 0 then []
    else if files[0].own then
      assert OwnFiles(files) == [files[0].part] + OwnFiles(files[1..]);
      [SaveAttachment(p, files[0].part, prefix, steps[0])] + SaveAttachments(p, files[1..], prefix, steps[1..])
    else
      assert OwnFiles(files) == OwnFiles(files[1..]);
      SaveAttachments(p, files[1..], prefix, steps)
  }

  /** The outcomes of a list of attachment attempts. */
  function OutcomesOf(runs: seq<AttachmentRun>): (r: seq<Outcome>)
    ensures |r| == |runs| && forall i :: 0 <= i < |runs| ==> r[i] == runs[i].outcome
  {
    seq(|runs|, i requires 0 <= i < |runs| => runs[i].outcome)
  }

  /** `Promise.all` of the message save and `Promise.all` of the attachment
      attempts: resolves iff all of them resolve, and otherwise rejects with
      the error of the message save or of one attachment. */
  function Settle(messageSave: Outcome, runs: seq<AttachmentRun>): (r: Outcome)
    ensures r.Resolved? <==>
              messageSave.Resolved? && forall i :: 0 <= i < |runs| ==> runs[i].outcome.Resolved?
    ensures r.Rejected? ==>
              r == messageSave || exists i :: 0 <= i < |runs| && runs[i].outcome == r
  {
    var attachments := All(OutcomesOf(runs));
    assert attachments.Rejected? ==>
             exists i :: 0 <= i < |runs| && runs[i].outcome == attachments by {
      if attachments.Rejected? {
        var j :| 0 <= j < |OutcomesOf(runs)| && OutcomesOf(runs)[j] == attachments;
        assert runs[j].outcome == attachments;
      }
    }
    Both(messageSave, attachments)
  }

  /** What one request did. */
  datatype RequestRun = RequestRun(
    outcome: Outcome,
    message: Option<MessageEntity>,     // the message record whose save was attempted
    messageSaved: bool,
    attachments: seq<AttachmentRun>)

  /** One request: decode the form; then save the message record and every
      attachment, and settle as `Promise.all` of the two. A decoding failure
      rejects before anything is saved or uploaded. */
  function HandleRequest(p: EmailProcessor, decoded: Result<Parts>, c: Coercions,
                         messageSave: Outcome, steps: seq<AttachmentSteps>): (run: RequestRun)
    requires decoded.Ok? ==> |steps| == |OwnFiles(decoded.value.files)|
    ensures decoded.Err? ==>
              run.outcome == Rejected(decoded.error) && run.message.None? && run.attachments == []
    ensures decoded.Ok? ==>
              && run.message == Some(MessageRecord(p, decoded.value.fields, c))
              && |run.attachments| == |OwnFiles(decoded.value.files)|
    ensures run.messageSaved <==> decoded.Ok? && messageSave.Resolved?
    ensures run.outcome.Resolved? <==>
              && decoded.Ok? && messageSave.Resolved?
              && forall i :: 0 <= i < |run.attachments| ==> run.attachments[i].outcome.Resolved?
    ensures decoded.Ok? && run.outcome.Rejected? ==>
              || run.outcome == messageSave
              || exists i :: 0 <= i < |run.attachments| && run.attachments[i].outcome == run.outcome
  {
    match decoded
    case Err(e) => RequestRun(Rejected(e), None, false, [])
    case Ok(parts) =>
      var message := MessageRecord(p, parts.fields, c);
      var prefix := ObjectPrefix(Recipient(parts.fields), p.messageId);
      var runs := SaveAttachments(p, parts.files, prefix, steps);
      RequestRun(Settle(messageSave, runs), Some(message), messageSave.Resolved?, runs)
  }

  /** The `recipient` form field, if submitted. */
  function Recipient(fields: map<string, string>): (r: Option<string>)
    ensures r.Some? <==> "recipient" in fields
    ensures r.Some? ==> r.value == fields["recipient"]
    ensures r.None? ==> Segment(r) == ""
  {
    if "recipient" in fields then Some(fields["recipient"]) else None
  }

  /** The request resolves exactly when the form decodes, the message record
      is saved, and every attachment's upload, local delete and metadata
      fetch succeed; the attachment record saves play no part. */
  lemma RequestOutcome(p: EmailProcessor, decoded: Result<Parts>, c: Coercions, messageSave: Outcome, steps: seq<AttachmentSteps>)
    requires decoded.Ok? ==> |steps| == |OwnFiles(decoded.value.files)|
    ensures HandleRequest(p, decoded, c, messageSave, steps).outcome.Resolved? <==>
              && decoded.Ok? && messageSave.Resolved?
              && forall i :: 0 <= i < |steps| ==>
                   steps[i].upload.Resolved? && steps[i].unlink.Resolved? && steps[i].getMetadata.Ok?
  {
  }

  /** Changing only how attachment record saves settle leaves the request's
      outcome, including its error, unchanged. */
  lemma RecordSavesDoNotAffectRequest(p: EmailProcessor, decoded: Result<Parts>, c: Coercions, messageSave: Outcome,
                                      steps: seq<AttachmentSteps>, other: seq<AttachmentSteps>)
    requires decoded.Ok? ==> |steps| == |OwnFiles(decoded.value.files)|
    requires |other| == |steps|
    requires forall i :: 0 <= i < |steps| ==> SameExceptSave(steps[i], other[i])
    ensures HandleRequest(p, decoded, c, messageSave, steps).outcome
         == HandleRequest(p, decoded, c, messageSave, other).outcome
  {
    if decoded.Ok? {
      var parts := decoded.value;
      var prefix := ObjectPrefix(Recipient(parts.fields), p.messageId);
      var runs := SaveAttachments(p, parts.files, prefix, steps);
      var runs' := SaveAttachments(p, parts.files, prefix, other);
      assert OutcomesOf(runs) == OutcomesOf(runs');
    }
  }

  /** The message id ties the request together: it is the second element of
      the message key, the second segment of every object path, and every
      attachment record is keyed under the message key. */
  lemma RequestIdentity(p: EmailProcessor, parts: Parts, c: Coercions, messageSave: Outcome, steps: seq<AttachmentSteps>)
    requires |steps| == |OwnFiles(parts.files)|
    ensures var run := HandleRequest(p, Ok(parts), c, messageSave, steps);
      && run.message.Some? && run.message.value.key == [p.config.emailEntity, p.messageId]
      && (forall i :: 0 <= i < |run.attachments| ==>
            run.attachments[i].destination
              == ObjectPath(Recipient(parts.fields), p.messageId, OwnFiles(parts.files)[i].filename))
      && (forall i :: 0 <= i < |run.attachments| && run.attachments[i].record.Some? ==>
            run.attachments[i].record.value.key == run.message.value.key + [p.config.attachmentEntity])
  {
  }

  /** A failed upload rejects the whole request, keeps that attachment's
      local file, and leaves it without an attachment record. */
  lemma FailedUploadRejectsRequest(p: EmailProcessor, parts: Parts, c: Coercions, messageSave: Outcome,
                                   steps: seq<AttachmentSteps>, i: nat)
    requires |steps| == |OwnFiles(parts.files)|
    requires i < |steps| && steps[i].upload.Rejected?
    ensures var run := HandleRequest(p, Ok(parts), c, messageSave, steps);
      && run.outcome.Rejected?
      && !run.attachments[i].localFileDeleted
      && run.attachments[i].record.None?
  {
  }
}
