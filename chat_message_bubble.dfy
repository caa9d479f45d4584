/** One chat message as drawn by `ChatMessageBubble.tsx`: which side it sits
    on, the attachment link, and how the timestamp is normalised to UTC
    before the relative time is formatted. Date parsing and formatting are
    parameters; the model follows the string that is handed to `new Date`. */
module ChatMessageBubble {
  import opened Wrappers
  import opened JsText
  import opened Types

  predicate IsSign(c: char) { c == '+' || c == '-' }

  /** `/[\+\-]\d{2}:\d{2}$/`: the string ends in a `±HH:MM` offset. */
  predicate EndsWithColonOffset(s: string)
  {
    |s| >= 6 && IsSign(s[|s| - 6]) && IsDigit(s[|s| - 5]) && IsDigit(s[|s| - 4]) &&
    s[|s| - 3] == ':' && IsDigit(s[|s| - 2]) && IsDigit(s[|s| - 1])
  }

  /** `/[\+\-]\d{2}\d{2}$/`: the string ends in a `±HHMM` offset. */
  predicate EndsWithCompactOffset(s: string)
  {
    |s| >= 5 && IsSign(s[|s| - 5]) && IsDigit(s[|s| - 4]) && IsDigit(s[|s| - 3]) &&
    IsDigit(s[|s| - 2]) && IsDigit(s[|s| - 1])
  }

  /** The timestamp already names its time zone. */
  predicate HasTimezone(s: string)
  {
    EndsWith(s, "Z") || EndsWithColonOffset(s) || EndsWithCompactOffset(s)
  }

  /** The string handed to `new Date`, if any: none for a missing or empty
      timestamp, the timestamp itself when it names its zone, and the
      timestamp with `Z` appended (read as UTC) otherwise. */
  function DateInput(timestamp: Option<string>): (r: Option<string>)
    ensures r.None? <==> !Truthy(timestamp)
    ensures r.Some? ==> HasTimezone(r.value) && StartsWith(r.value, timestamp.value)
    ensures r.Some? && HasTimezone(timestamp.value) ==> r.value == timestamp.value
    ensures r.Some? && !HasTimezone(timestamp.value) ==> r.value == timestamp.value + "Z"
  {
    if !Truthy(timestamp) then None
    else if HasTimezone(timestamp.value) then Some(timestamp.value)
    else
      var s := timestamp.value + "Z";
      assert s[..|timestamp.value|] == timestamp.value;
      Some(s)
  }

  /** Normalising twice is normalising once: the appended form ends in `Z`. */
  lemma DateInputIdempotent(timestamp: Option<string>)
    ensures DateInput(DateInput(timestamp)) == DateInput(timestamp)
  {
  }

  /** The relative time under the bubble: `format` stands for
      `formatDistanceToNow(new Date(s), { addSuffix: true })`. */
  function RelativeTime(timestamp: Option<string>, format: string -> string): (r: string)
    ensures !Truthy(timestamp) ==> r == ""
    ensures Truthy(timestamp) ==> r == format(DateInput(timestamp).value)
  {
    match DateInput(timestamp)
    case None => ""
    case Some(s) => format(s)
  }

  /** The hover title: the local date string when there is a date, the raw
      timestamp otherwise. */
  function HoverTitle(timestamp: Option<string>, toLocaleString: string -> string): (r: Option<string>)
    ensures Truthy(timestamp) ==> r == Some(toLocaleString(DateInput(timestamp).value))
    ensures !Truthy(timestamp) ==> r == timestamp
  {
    match DateInput(timestamp)
    case None => timestamp
    case Some(s) => Some(toLocaleString(s))
  }

  datatype Side = Start | End

  /** Where the bubble sits and which avatar it gets. */
  datatype Layout = Layout(side: Side, userAvatar: bool, botAvatar: bool)

  function BubbleLayout(m: ChatMessage): (l: Layout)
    ensures l.side == End <==> m.role == User
    ensures l.userAvatar <==> m.role == User
    ensures l.botAvatar <==> m.role == Model
    ensures l.userAvatar != l.botAvatar
  {
    var isUser := m.role == User;
    Layout(if isUser then End else Start, isUser, !isUser)
  }

  const AttachedPrefix := "Attached file ("

  /** The attachment link's text, present only when the message carries a
      file URI: the MIME type, or "unknown type", in parentheses. */
  function AttachmentLabel(m: ChatMessage): (r: Option<string>)
    ensures r.Some? <==> Truthy(m.file_uri)
    ensures r.Some? ==> |r.value| > |AttachedPrefix| && StartsWith(r.value, AttachedPrefix) && EndsWith(r.value, ")")
    ensures r.Some? ==> r.value[|AttachedPrefix|..|r.value| - 1] == OrElse(m.file_mime_type, "unknown type")
  {
    if Truthy(m.file_uri) then
      var kind := OrElse(m.file_mime_type, "unknown type");
      var s := AttachedPrefix + kind + ")";
      assert s[..|AttachedPrefix|] == AttachedPrefix;
      assert s[|AttachedPrefix|..|s| - 1] == kind;
      Some(s)
    else None
  }
}
