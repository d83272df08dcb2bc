/**
 * What src/components/EventsList.tsx derives from one event before
 * rendering it: the timestamp it shows, the label for its type, whether it
 * counts as an AI event, the shortened request id, and which metadata
 * markers appear.
 */
module EventsList {
  import opened Wrappers
  import opened JsValues
  import opened JsStrings

  /** The fields of an event the list reads. Timestamps and flags are JSON
      values, since the list branches on their truthiness and their type;
      `req_id` is a string when present. */
  datatype EventRecord = EventRecord(
    eventType: string,
    ts: Value,
    firstSeenAt: Value,
    doneAt: Value,
    reqId: Option<string>,
    leaseId: Value,
    key: Value,
    errorCode: Value,
    charged: Value)

  /** `e.ts || e.first_seen_at || e.done_at` */
  function Timestamp(e: EventRecord): (raw: Value)
    ensures Truthy(e.ts) ==> raw == e.ts
    ensures !Truthy(e.ts) && Truthy(e.firstSeenAt) ==> raw == e.firstSeenAt
    ensures !Truthy(e.ts) && !Truthy(e.firstSeenAt) ==> raw == e.doneAt
    ensures Truthy(raw) <==> Truthy(e.ts) || Truthy(e.firstSeenAt) || Truthy(e.doneAt)
  {
    Or(Or(e.ts, e.firstSeenAt), e.doneAt)
  }

  /** What `formatWhen` hands to `new Date`: nothing (it shows ""), a count of
      milliseconds for a numeric timestamp, or the value itself to parse. */
  datatype When = Blank | EpochMillis(ms: int) | Parsed(raw: Value)

  /** `formatWhen(e)` up to the `Date` it builds. A number is read as seconds
      since the epoch. */
  function FormatWhen(e: EventRecord): (w: When)
    ensures w.Blank? <==> !Truthy(e.ts) && !Truthy(e.firstSeenAt) && !Truthy(e.doneAt)
    ensures w.EpochMillis? <==> Truthy(Timestamp(e)) && Timestamp(e).Num?
    ensures w.EpochMillis? ==> w.ms == 1000 * Timestamp(e).n
    ensures w.Parsed? ==> w.raw == Timestamp(e) && Truthy(w.raw) && !w.raw.Num?
  {
    var raw := Timestamp(e);
    if !Truthy(raw) then Blank
    else if raw.Num? then EpochMillis(raw.n * 1000)
    else Parsed(raw)
  }

  /** A timestamp field that is falsy is skipped, even a numeric `0`. */
  lemma ZeroTimestampFallsThrough(e: EventRecord)
    requires e.ts == Num(0) && Truthy(e.firstSeenAt) && e.firstSeenAt.Num?
    ensures FormatWhen(e) == EpochMillis(1000 * e.firstSeenAt.n)
  {
  }

  /** `TYPE_LABELS` */
  const TypeLabels: map<string, string> := map[
    "duplicate" := "Duplicate Blocked",
    "over_limit" := "Limit Reached",
    "locked" := "New Lock Created",
    "ai_acquired" := "AI Lease Acquired",
    "ai_in_progress" := "AI In Progress",
    "ai_completed" := "AI Task Completed",
    "ai_failed" := "AI Task Failed",
    "ai_extended" := "AI Lease Extended",
    "ai_canceled" := "AI Canceled",
    "ai_over_limit" := "AI Limit Reached"
  ]

  /** `TYPE_LABELS[e.type] || e.type`: every label is non-empty, so the raw
      type is shown exactly when it has no label. */
  function DisplayType(eventType: string): (text: string)
    ensures eventType in TypeLabels ==> text == TypeLabels[eventType]
    ensures eventType !in TypeLabels ==> text == eventType
    ensures eventType != "" ==> text != ""
  {
    var labelled := if eventType in TypeLabels then Str(TypeLabels[eventType]) else Undefined;
    var shown := Or(labelled, Str(eventType));
    if shown.Str? then shown.s else eventType
  }

  /** Each listed type has its own label. */
  lemma LabelsDistinct(a: string, b: string)
    requires a in TypeLabels && b in TypeLabels && a != b
    ensures DisplayType(a) != DisplayType(b)
  {
  }

  /** `!!e.lease_id || e.type.startsWith("ai_")` */
  predicate IsAi(e: EventRecord) {
    Truthy(e.leaseId) || StartsWith(e.eventType, "ai_")
  }

  /** The category badge. */
  function Badge(e: EventRecord): (b: string)
    ensures b == "AI Agent" <==> IsAi(e)
    ensures b == "Automation" <==> !IsAi(e)
  {
    if IsAi(e) then "AI Agent" else "Automation"
  }

  /** The labelled types split into AI types, whose labels all begin with
      "AI ", and the three automation types, which are AI only with a lease. */
  lemma LabelledTypesAgreeWithBadge(e: EventRecord)
    requires e.eventType in TypeLabels
    ensures StartsWith(e.eventType, "ai_") ==> IsAi(e) && StartsWith(DisplayType(e.eventType), "AI ")
    ensures !StartsWith(e.eventType, "ai_") ==>
      e.eventType in {"duplicate", "over_limit", "locked"} && (IsAi(e) <==> Truthy(e.leaseId))
  {
    var t := e.eventType;
    assert t[0] != 'a' <==> t == "duplicate" || t == "over_limit" || t == "locked";
    if t[0] == 'a' {
      assert t[..3] == "ai_" && TypeLabels[t][..3] == "AI ";
    }
  }

  /** `id:{e.req_id.slice(0, 8)}...`, shown when `req_id` is truthy. The
      label is a JavaScript string, so it is given as UTF-16 code units and
      the slice keeps the first eight of them. */
  function ReqIdLabel(reqId: Option<string>): (text: Option<seq<int>>)
    ensures text.Some? <==> reqId.Some? && reqId.value != ""
    ensures text.Some? ==>
      var u := Utf16(reqId.value);
      var n := if |u| < 8 then |u| else 8;
      && |text.value| == n + 6
      && text.value[..3] == Utf16("id:")
      && text.value[3..3 + n] == u[..n]
      && text.value[3 + n..] == Utf16("...")
  {
    if reqId.None? || reqId.value == "" then None
    else
      var u := Utf16(reqId.value);
      NarrowUtf16("id:");
      NarrowUtf16("...");
      Some(Utf16("id:") + (if |u| < 8 then u else u[..8]) + Utf16("..."))
  }

  /** Request ids at least eight code units long are shown alike exactly
      when their first eight code units agree. */
  lemma ReqIdLabelDistinguishesPrefix(a: string, b: string)
    requires |Utf16(a)| >= 8 && |Utf16(b)| >= 8
    ensures ReqIdLabel(Some(a)) == ReqIdLabel(Some(b)) <==> Utf16(a)[..8] == Utf16(b)[..8]
  {
    if ReqIdLabel(Some(a)) == ReqIdLabel(Some(b)) {
      assert ReqIdLabel(Some(a)).value[3..11] == Utf16(a)[..8];
      assert ReqIdLabel(Some(b)).value[3..11] == Utf16(b)[..8];
    }
  }

  /** A request id in characters below U+10000 shows its first eight characters. */
  lemma NarrowReqIdShowsEightCharacters(s: string)
    requires |s| >= 8 && forall k :: 0 <= k < |s| ==> s[k] as int < 0x1_0000
    ensures var text := ReqIdLabel(Some(s)).value;
      forall k :: 0 <= k < 8 ==> text[3 + k] == s[k] as int
  {
    NarrowUtf16(s);
    var text := ReqIdLabel(Some(s)).value;
    assert text[3..11] == Utf16(s)[..8];
    forall k | 0 <= k < 8
      ensures text[3 + k] == s[k] as int
    {
      assert text[3 + k] == text[3..11][k];
    }
  }

  /** The slice can end inside a surrogate pair: after one narrow character,
      the fourth wide character is cut after its high surrogate. */
  lemma SliceCanSplitPair(c: char, w: char)
    requires c as int < 0x1_0000 && w as int >= 0x1_0000
    ensures var text := ReqIdLabel(Some([c] + Repeat(w, 4))).value;
      |text| == 14 && IsHighSurrogate(text[10]) && text[10] == CodeUnits(w)[0]
  {
    var s := [c] + Repeat(w, 4);
    Utf16Append([c], Repeat(w, 4));
    assert Repeat(w, 4) == [w] + [w] + [w] + [w];
    Utf16Append([w] + [w] + [w], [w]);
    Utf16Append([w] + [w], [w]);
    Utf16Append([w], [w]);
    var text := ReqIdLabel(Some(s)).value;
    assert text[3..11] == Utf16(s)[..8];
    assert text[10] == text[3..11][7];
  }

  /** The metadata markers of one row. */
  datatype Markers = Markers(showsKey: bool, reqId: Option<seq<int>>, showsError: bool, showsCredit: bool)

  /** `e.key && …`, `e.req_id && …`, `e.error_code && …`, `e.charged === 1 && …` */
  function RowMarkers(e: EventRecord): (m: Markers)
    ensures m.showsKey <==> Truthy(e.key)
    ensures m.reqId == ReqIdLabel(e.reqId)
    ensures m.showsError <==> Truthy(e.errorCode)
    // strict equality: `true`, `"1"` and other numbers show no credit
    ensures m.showsCredit <==> e.charged == Num(1)
  {
    Markers(Truthy(e.key), ReqIdLabel(e.reqId), Truthy(e.errorCode), e.charged == Num(1))
  }

  /** The credit marker needs the number 1 itself, not merely a truthy value. */
  lemma CreditNeedsNumberOne(e: EventRecord)
    requires e.charged == Bool(true) || e.charged == Str("1")
    ensures Truthy(e.charged) && !RowMarkers(e).showsCredit
  {
  }
}
