# EmailProcessor of gcf-mailgun, modelled in Dafny

The project models the core of a Google Cloud Function that receives
Mailgun's "parsed message" webhook. For each inbound email, an
`EmailProcessor` does four things:

- It draws a random message id and derives the record-store key
  `[emailEntity, id]` from it.
- It keeps the allow-listed form fields and saves them as the message
  record. When present, `timestamp` and `attachment-count` are parsed, and
  a `date` entry is added when there is a timestamp. The free-text fields
  are marked non-indexed.
- It uploads each attached file to `<recipient>/<id>/<filename>`, deletes
  the local temporary file, fetches the object's metadata, and saves an
  attachment record keyed under the message key.
- It settles the request as `Promise.all` of the message save and all the
  attachment attempts.

Every external call appears in the model as the way it settled. That covers
the form decoder, the record store, blob storage and `fs.unlinkSync`. So the
model consists of pure functions over those outcomes.

Modules:
- `Outcomes`: `Option`, `Result`, the settled `Outcome` of a promise, and
  `Promise.all` (`All`, `Both`).
- `Message`: the allow-list, the non-indexed list, and the projection of
  form fields onto the message record. `parseInt` and the conversion of a
  timestamp to a date are given as function values (`Coercions`) and are
  never interpreted.
- `Paths`: `Array.prototype.join` on the object prefix, and the destination
  path. Also a reader that splits a path back into recipient, id and
  filename. It is the partner in the round-trip lemmas.
- `Processor`: keys, records, the attachment pipeline (`SaveAttachment`),
  the loop over `files` (`SaveAttachments`) and the request
  (`HandleRequest`).

Two behaviours of the code are worth stating plainly:
- A non-numeric `timestamp` or `attachment-count` is stored as whatever
  `parseInt` returns (NaN). It never rejects the message save.
- `fs.unlinkSync` runs inside the upload's continuation
  (function/processor.js:80). If it throws, the attachment is rejected, and
  so is the request.

## Model

| member | source | states |
|---|---|---|
| Outcomes.All | function/processor.js:63-69 | `Promise.all` resolves iff every input resolved; when it rejects, it carries the error of one of the rejected inputs |
| Outcomes.Both | function/processor.js:24 | the two-element `Promise.all` of the message save and the attachments resolves iff both resolve; otherwise it rejects with one of their errors |
| Processor.MessageKey | function/processor.js:10 | the message key has two elements: the message kind, then the message id drawn once per processor |
| Paths.Join | function/processor.js:76 | `Array.prototype.join`: no elements give the empty string; the result starts with the first element's text and ends with the last one's; two elements are joined around one separator; `undefined` renders as the empty string |
| Paths.Destination | function/processor.js:76 | the destination joins a two-element prefix with slashes and appends a slash and the filename; it always ends with the filename |
| Paths.ObjectPrefix | function/processor.js:22 | the prefix `[recipient, id]` joins to the recipient segment, a slash, and the message id |
| Processor.Recipient | function/processor.js:22 | the `recipient` field is read when submitted, and is otherwise missing, which renders as an empty segment |
| Processor.OwnFiles | function/processor.js:63-64 | every selected part belongs to an own property of `files`; every own property's part is selected; there are no more parts than properties; with no own property, nothing is selected |
| Processor.OwnFilesInOrder | function/processor.js:63-64 | the selection keeps enumeration order: the own parts of two runs of properties are those of the first followed by those of the second |
| Processor.Settle | function/processor.js:24 | `Promise.all` of the message save and of all attachment attempts resolves iff all resolve; a rejection carries the error of the message save or of one attachment |
| Message.FilterProperties | function/processor.js:45 | a field is kept iff it was submitted and is allow-listed; kept fields carry their submitted text |
| Message.CoerceTimestamp | function/processor.js:46-49 | a present timestamp is replaced by its parsed value, and `date` is added, derived from the parsed value; all other entries are untouched; no timestamp means no change |
| Message.CoerceAttachmentCount | function/processor.js:50-52 | a present attachment count is replaced by its parsed value; the key set and every other entry are unchanged |
| Message.ProjectMessage | function/processor.js:31-52 | the record holds only allow-listed names plus `date`; an allow-listed name is present iff submitted; `date` is present iff `timestamp` was submitted; the two numeric fields hold their parsed values; every other field keeps its submitted text |
| Message.NonIndexedFieldsAreProjectedText | function/processor.js:31-44 | every non-indexed name is on the allow-list and is never coerced, so a submitted non-indexed field is stored as its original text |
| Message.UnknownFieldsIgnored | function/processor.js:29-45 | adding fields outside the allow-list to a submission leaves the message record unchanged |
| Paths.ObjectPath | function/processor.js:76 | the destination is recipient, `/`, message id, `/`, filename; a missing recipient gives an empty first segment, so the path starts with `/` |
| Paths.ObjectPathRoundTrip | function/processor.js:76 | when recipient and id contain no slash, reading the destination back yields the recipient, the id and the filename |
| Paths.ParsedPathShape | function/processor.js:76 | a path that reads back as (recipient, id, filename) is exactly those three joined by slashes, and the recipient and id contain no slash |
| Paths.ParseObjectPathSound | function/processor.js:76 | every path that reads back as (recipient, id, filename) is the destination built from those three, with slash-free recipient and id |
| Processor.MessageRecord | function/processor.js:36-53 | the saved record has the message key, exactly the seven non-indexed names, and the projected data (so `ProjectMessage`'s whole contract applies); every non-indexed name is allow-listed; submitted non-indexed fields are stored as text |
| Processor.AttachmentRecord | function/processor.js:86-98 | the attachment key is the message key extended by the attachment kind; the record carries the submitted filename and the fetched bucket, object name, content type, size and MD5 hash |
| Processor.SaveAttachment | function/processor.js:72-106 | an attachment resolves iff upload, local delete and metadata fetch all succeed, whatever the record save does; a rejection carries the first failing step's error; the local file is deleted only after a successful upload; a record is attempted iff the attachment resolves |
| Processor.RecordSaveDoesNotAffectAttachment | function/processor.js:99-101 | two runs that differ only in how the record save settles have the same outcome |
| Processor.SaveAttachments | function/processor.js:61-70 | exactly one attempt per own property of `files`, in enumeration order; inherited properties are skipped |
| Processor.HandleRequest | function/processor.js:18-25 | a decoding failure rejects with its error before any record or upload; otherwise the message record is built and one attempt is made per own file; the request resolves iff the message save and every attachment resolve; a rejection carries the message save's error or the error of one attachment |
| Processor.RequestOutcome | function/processor.js:19-106 | the request resolves iff decoding succeeds, the message save succeeds, and every attachment's upload, delete and metadata fetch succeed; the recipient plays no part, so a missing recipient does not reject the request |
| Processor.RecordSavesDoNotAffectRequest | function/processor.js:99-101 | changing only how attachment record saves settle leaves the request's outcome, error included, unchanged |
| Processor.RequestIdentity | function/processor.js:10-87 | the one message id is the second element of the message key and the second segment of every destination, and every attachment record is keyed under the message key |
| Processor.FailedUploadRejectsRequest | function/processor.js:77-106 | a failed upload rejects the request, keeps that attachment's local file, and leaves it without a record |

## Left out

- The multipart decoder (`./busboy.js`) is not part of this model. Its result is an input: a decoding error, or the scalar fields plus the `files` properties in `for..in` order.
- Datastore, Cloud Storage and `fs.unlinkSync` are external I/O. Each call is an input saying how it settled, and a metadata fetch that succeeds supplies the metadata.
- The random message id (`uuidv4`) is a parameter of the processor.
- `parseInt` and `convertTimestampToDate` (`utils.js`, not part of this model) are uninterpreted function values. A JavaScript `Date` is represented by its time value.
- `filterProperties` (`utils.js`) is modelled as the allow-list restriction of the submitted fields.
- Message.Num: a JavaScript number is abstracted as an unbounded integer or NaN. `Infinity` (for values of about 1.8e308 or more), -0, and the rounding of large values to doubles are not represented. No proof depends on this, since `parseInt` is uninterpreted.
- Processor.SaveAttachments: the model always makes one attempt per own property of `files`. If the sender names a file field `hasOwnProperty`, the call `files.hasOwnProperty(name)` at function/processor.js:64 finds the file descriptor instead of the method and throws a TypeError. The request then rejects after the message save has started and before any upload. The model does not represent this.
- Outcomes.All: the source's first-rejection-wins depends on timing. The contract promises only that the error is one of the rejections; the body picks the first in listing order.
- Promise concurrency is not modelled. Every attempt is a settled outcome, with no ordering among uploads and saves.
- The `encoding` and `mimeType` of a file part are carried but never read, as in the source. `bucketName` is used only to pick the bucket and in log text; the model does not track which bucket is written.
- Console logging is left out.
- Synchronous throws from the client libraries are not modelled. Neither is metadata that is missing its fields: the model assumes a successful fetch returns well-formed metadata.
