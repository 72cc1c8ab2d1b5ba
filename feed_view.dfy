/** The pure parts of the frontend: what `displayMessages` renders for a
    retrieved list (newest first, or the empty state) and the relative-time
    buckets of `formatTimestamp`. */
module FeedView {
  import opened Text
  import opened Messages

  /** The message list area, as an abstract value rather than HTML. */
  datatype View =
    | Unrendered             // the page's initial markup, before any load
    | Loading                // "Loading messages..."
    | Empty                  // "No messages yet. Add the first one!"
    | Feed(entries: seq<Message>)  // one entry per message, in display order
    | Error(reason: string)  // "Error loading messages" with the error's message

  /** The reference ordering: s back to front. */
  function Reverse<T>(s: seq<T>): (r: seq<T>)
    ensures |r| == |s|
    ensures forall i :: 0 <= i < |s| ==> r[i] == s[|s| - 1 - i]
  {
    if s == [] then [] else Reverse(s[1..]) + [s[0]]
  }

  /** Reversing twice gives back the retrieved order. */
  lemma ReverseInvolutive<T>(s: seq<T>)
    ensures Reverse(Reverse(s)) == s
  {
    assert forall i :: 0 <= i < |s| ==> Reverse(Reverse(s))[i] == s[i];
  }

  /** `[...messages].reverse()`: copy the list into a fresh array, then
      reverse the copy in place. The caller's list is a value and cannot
      change. */
  method ReversedCopy<T>(messages: seq<T>) returns (sorted: seq<T>)
    ensures sorted == Reverse(messages)
  {
    var a := new T[|messages|](i requires 0 <= i < |messages| => messages[i]);
    var n := a.Length;
    var i := 0;
    while i < n / 2
      invariant 0 <= i <= n / 2
      invariant forall k :: 0 <= k < i ==> a[k] == messages[n - 1 - k] && a[n - 1 - k] == messages[k]
      invariant forall k :: i <= k < n - i ==> a[k] == messages[k]
    {
      a[i], a[n - 1 - i] := a[n - 1 - i], a[i];
      i := i + 1;
    }
    sorted := a[..];
  }

  /** What `displayMessages` renders for the list the API returned. */
  function Display(messages: seq<Message>): (v: View)
    ensures v == Empty <==> messages == []
    ensures v != Empty ==> v.Feed? && |v.entries| == |messages|
    ensures v.Feed? ==> forall i :: 0 <= i < |messages| ==> v.entries[i] == messages[|messages| - 1 - i]
  {
    if |messages| == 0 then Empty else Feed(Reverse(messages))
  }

  /** For a list in the API's id order (ids 1..n), the feed shows strictly
      decreasing ids: the newest message first. */
  lemma NewestFirst(messages: seq<Message>)
    requires ConsecutiveIds(messages)
    ensures Display(messages).Feed? ==>
      forall i, j :: 0 <= i < j < |messages| ==> Display(messages).entries[i].id > Display(messages).entries[j].id
  {
  }

  datatype Option<T> = None | Some(value: T)

  /** `formatTimestamp` for the two buckets driven by the difference in
      milliseconds; the calendar and locale branches are outside the model. */
  datatype Age =
    | JustNow
    | MinutesAgo(minutes: int)
    | Clock  // an hour or more: rendered from the calendar date, not modelled

  function AgeOf(diff: int): (a: Age)
    ensures a == JustNow <==> diff < 60000
    ensures a.MinutesAgo? <==> 60000 <= diff < 3600000
    ensures a.MinutesAgo? ==>
      1 <= a.minutes <= 59 && a.minutes * 60000 <= diff < (a.minutes + 1) * 60000
  {
    if diff < 60000 then JustNow
    else if diff < 3600000 then MinutesAgo(diff / 60000)
    else Clock
  }

  /** The text `formatTimestamp` returns for a difference, or None for the
      calendar branches. */
  function FormatTimestamp(diff: int): (r: Option<string>)
    ensures diff < 60000 ==> r == Some("just now")
    ensures 60000 <= diff < 3600000 ==> r == Some(Decimal(diff / 60000) + " min ago")
    ensures diff >= 3600000 ==> r == None
  {
    match AgeOf(diff)
    case JustNow => Some("just now")
    case MinutesAgo(m) => Some(Decimal(m) + " min ago")
    case Clock => None
  }

  /** The minutes label reads back as the whole minutes elapsed: a label
      "N min ago" has N in 1..59, and N = floor(diff / 60000). */
  lemma MinutesLabel(diff: int)
    requires 60000 <= diff < 3600000
    ensures FormatTimestamp(diff).Some?
    ensures var shown := FormatTimestamp(diff).value;
      |shown| > 8 && shown[|shown| - 8..] == " min ago" &&
      var digits := shown[..|shown| - 8];
      (forall i :: 0 <= i < |digits| ==> '0' <= digits[i] <= '9') &&
      1 <= DecimalValue(digits) <= 59 &&
      DecimalValue(digits) * 60000 <= diff < (DecimalValue(digits) + 1) * 60000
  {
    var m := diff / 60000;
    var shown := Decimal(m) + " min ago";
    assert shown[..|shown| - 8] == Decimal(m);
    DecimalRoundTrip(m);
  }

  /** Older means a later-or-equal bucket: the label never goes back from
      minutes to "just now" as the difference grows, and minutes never
      decrease. */
  lemma AgeMonotone(d1: int, d2: int)
    requires d1 <= d2
    ensures AgeOf(d2) == JustNow ==> AgeOf(d1) == JustNow
    ensures AgeOf(d1).MinutesAgo? && AgeOf(d2).MinutesAgo? ==> AgeOf(d1).minutes <= AgeOf(d2).minutes
  {
  }
}
