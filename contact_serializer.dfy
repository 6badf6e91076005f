/**
 * The server-side contact-form rules (backend/apps/content/serializers.py,
 * ContactSubmissionSerializer): the message length check and the read-only
 * fields of a submission.
 */
module ContactSerializer {
  import opened Wrappers

  const MinMessageLength: nat := 10
  const MaxMessageLength: nat := 2000

  datatype MessageError = TooShort | TooLong

  function MessageErrorText(e: MessageError): string {
    match e
    case TooShort => "Message must be at least 10 characters long."
    case TooLong => "Message must be at most 2000 characters long."
  }

  /**
   * `validate_message`: the length is that of the value exactly as it is
   * handed to the method (Python `len`, in code points); the method itself
   * trims nothing.
   */
  function ValidateMessage(value: string): (r: Result<string, MessageError>)
    ensures r.Ok? <==> MinMessageLength <= |value| <= MaxMessageLength
    ensures r.Ok? ==> r.value == value
    ensures r == Err(TooShort) <==> |value| < MinMessageLength
    ensures r == Err(TooLong) <==> |value| > MaxMessageLength
  {
    if |value| < MinMessageLength then Err(TooShort)
    else if |value| > MaxMessageLength then Err(TooLong)
    else Ok(value)
  }

  /** The serializer's declared fields, and the two a client may not write. */
  const SubmissionFields: set<string> := {"id", "name", "email", "phone", "subject", "message", "created_at"}
  const ReadOnlyFields: set<string> := {"id", "created_at"}

  /** The part of the submitted data the serializer accepts for writing. */
  function WritableData(data: map<string, string>): (r: map<string, string>)
    ensures "id" !in r && "created_at" !in r
    ensures forall k :: k in r <==> k in data && k in SubmissionFields && k !in ReadOnlyFields
    ensures forall k :: k in r ==> r[k] == data[k]
  {
    map k | k in data && k in SubmissionFields - ReadOnlyFields :: data[k]
  }
}
