/**
 * bot/nlu.py: the keyword intent classifier, the casual date resolver, the
 * intent-conditioned entity extractor and `parse_transcript`, whose single
 * guard sends a transcript in which the rules found nothing to the LLM.
 *
 * The wall clock (`datetime.now()`), `dateparser.parse` and the OpenAI call are
 * inputs: `now`, `dateParser` and `llm`. Confidences are in tenths (0.7 is 7).
 */
module Nlu {
  import opened Common
  import opened Text
  import opened Regex
  import opened Calendar

  // ===========================================================================
  // Intents

  datatype Intent = LeadCreate | VisitSchedule | LeadUpdate | Unknown | Other(name: string)

  /** The label an intent travels under in dictionaries and JSON. */
  function Label(i: Intent): string {
    match i
    case LeadCreate => "LEAD_CREATE"
    case VisitSchedule => "VISIT_SCHEDULE"
    case LeadUpdate => "LEAD_UPDATE"
    case Unknown => "UNKNOWN"
    case Other(l) => l
  }

  /** The intent a label names; a label outside the four is kept as it is. */
  function IntentOfLabel(s: string): (i: Intent)
    ensures Label(i) == s
    ensures i.Other? <==> s !in {"LEAD_CREATE", "VISIT_SCHEDULE", "LEAD_UPDATE", "UNKNOWN"}
  {
    if s == "LEAD_CREATE" then LeadCreate
    else if s == "VISIT_SCHEDULE" then VisitSchedule
    else if s == "LEAD_UPDATE" then LeadUpdate
    else if s == "UNKNOWN" then Unknown
    else Other(s)
  }

  // ===========================================================================
  // classify_intent

  /** The keys of INTENT_KEYWORDS in iteration order. */
  const KnownIntents: seq<Intent> := [LeadCreate, VisitSchedule, LeadUpdate]

  /** INTENT_KEYWORDS */
  function Keywords(i: Intent): seq<string> {
    match i
    case LeadCreate => ["add", "create", "new lead"]
    case VisitSchedule => ["schedule", "fix", "visit"]
    case LeadUpdate => ["update", "mark"]
    case _ => []
  }

  /** `sum(1 for k in keywords if k in t)` */
  function MatchCount(t: string, keywords: seq<string>): (n: nat)
    ensures n <= |keywords|
    ensures n == 0 <==> forall k :: 0 <= k < |keywords| ==> !Contains(t, keywords[k])
  {
    if keywords == [] then 0
    else (if Contains(t, keywords[0]) then 1 else 0) + MatchCount(t, keywords[1..])
  }

  /** The 0.3 returned when no intent has a keyword. */
  const DefaultConfidence: nat := 3

  /** `min(1.0, 0.5 + 0.2 * m)` in tenths. */
  function Score(m: nat): nat {
    if 5 + 2 * m < 10 then 5 + 2 * m else 10
  }

  /** The confidence a keyword count competes with: 0 for no match, else `Score`. */
  function Confidence(m: nat): nat {
    if m > 0 then Score(m) else 0
  }

  /** The confidence an intent competes with in the lower-cased transcript. */
  function Candidate(t: string, i: Intent): (c: nat)
    ensures c == 0 || c == 7 || c == 9 || c == 10
    ensures c == 0 <==> MatchCount(t, Keywords(i)) == 0
  {
    Confidence(MatchCount(t, Keywords(i)))
  }

  function Max(a: nat, b: nat): nat {
    if a < b then b else a
  }

  /**
   * The choice among the candidate confidences of LEAD_CREATE, VISIT_SCHEDULE
   * and LEAD_UPDATE: the best one, never below the 0.3 default, credited to the
   * first intent in that order that reaches it; UNKNOWN with 0.3 when no
   * intent beats the default.
   */
  function Choose(c0: nat, c1: nat, c2: nat): (Intent, nat) {
    var best := Max(DefaultConfidence, Max(c0, Max(c1, c2)));
    if best == DefaultConfidence then (Unknown, DefaultConfidence)
    else if c0 == best then (LeadCreate, best)
    else if c1 == best then (VisitSchedule, best)
    else (LeadUpdate, best)
  }

  /** What `classify_intent` returns. */
  function Classification(transcript: string): (r: (Intent, nat))
    ensures r.1 == 3 || r.1 == 7 || r.1 == 9 || r.1 == 10
    ensures r.0 == Unknown <==> r.1 == DefaultConfidence
    ensures r.0 == Unknown || r.0 in KnownIntents
  {
    var t := Lower(transcript);
    Choose(Candidate(t, LeadCreate), Candidate(t, VisitSchedule), Candidate(t, LeadUpdate))
  }

  /** classify_intent: one pass over the intents, keeping a candidate only when it is strictly better. */
  method ClassifyIntent(transcript: string) returns (intent: Intent, confidence: nat)
    ensures (intent, confidence) == Classification(transcript)
  {
    var t := Lower(transcript);
    intent, confidence := Unknown, DefaultConfidence;
    ghost var chosen := 0;
    ghost var c := [Candidate(t, LeadCreate), Candidate(t, VisitSchedule), Candidate(t, LeadUpdate)];
    for k := 0 to |KnownIntents|
      invariant confidence >= DefaultConfidence
      invariant forall j :: 0 <= j < k ==> c[j] <= confidence
      invariant confidence == DefaultConfidence ==> intent == Unknown
      invariant confidence > DefaultConfidence ==>
        chosen < k && intent == KnownIntents[chosen] && c[chosen] == confidence
        && forall j :: 0 <= j < chosen ==> c[j] < confidence
    {
      assert c[k] == Candidate(t, KnownIntents[k]);
      var matches := MatchCount(t, Keywords(KnownIntents[k]));
      if matches > 0 {
        var conf := Score(matches);
        if conf > confidence {
          confidence, intent := conf, KnownIntents[k];
          chosen := k;
        }
      }
    }
    ChooseCharacterized(c, intent, confidence, chosen);
  }

  /**
   * The outcome of a strict-improvement scan over the candidates is the choice
   * `Choose` describes: no candidate beats it, and an earlier equal one would
   * have been kept.
   */
  lemma ChooseCharacterized(c: seq<nat>, intent: Intent, confidence: nat, chosen: nat)
    requires |c| == 3 && forall j :: 0 <= j < 3 ==> c[j] != DefaultConfidence
    requires confidence >= DefaultConfidence
    requires forall j :: 0 <= j < 3 ==> c[j] <= confidence
    requires confidence == DefaultConfidence ==> intent == Unknown
    requires confidence > DefaultConfidence ==>
      chosen < 3 && intent == KnownIntents[chosen] && c[chosen] == confidence
      && forall j :: 0 <= j < chosen ==> c[j] < confidence
    ensures (intent, confidence) == Choose(c[0], c[1], c[2])
  {
  }

  /** UNKNOWN (with 0.3) exactly when no keyword of any intent occurs in the lower-cased transcript. */
  lemma ClassifiedUnknownIff(transcript: string)
    ensures Classification(transcript).0 == Unknown <==>
      forall i, k :: i in KnownIntents && 0 <= k < |Keywords(i)| ==> !Contains(Lower(transcript), Keywords(i)[k])
  {
    var t := Lower(transcript);
    if Classification(transcript).0 == Unknown {
      forall i | i in KnownIntents
        ensures MatchCount(t, Keywords(i)) == 0
      {
      }
    }
  }

  /**
   * A known intent is chosen only with the largest keyword count m, at
   * confidence min(1.0, 0.5 + 0.2 m); an equally good later intent loses the
   * tie because the comparison is strict.
   */
  lemma ClassifiedBest(transcript: string, k: nat)
    requires k < |KnownIntents| && Classification(transcript).0 == KnownIntents[k]
    ensures var t := Lower(transcript);
      var m := MatchCount(t, Keywords(KnownIntents[k]));
      m > 0 && Classification(transcript).1 == Score(m)
      && (forall j :: 0 <= j < |KnownIntents| ==> MatchCount(t, Keywords(KnownIntents[j])) <= m)
      && (forall j :: 0 <= j < k ==> MatchCount(t, Keywords(KnownIntents[j])) < m)
  {
    var t := Lower(transcript);
    var ms := [MatchCount(t, Keywords(LeadCreate)), MatchCount(t, Keywords(VisitSchedule)), MatchCount(t, Keywords(LeadUpdate))];
    forall j | 0 <= j < 3
      ensures MatchCount(t, Keywords(KnownIntents[j])) == ms[j] <= 3
    {
    }
    ChooseBest(ms, k);
  }

  /** `ClassifiedBest` on the keyword counts alone. */
  lemma ChooseBest(ms: seq<nat>, k: nat)
    requires |ms| == 3 && k < 3 && forall j :: 0 <= j < 3 ==> ms[j] <= 3
    requires Choose(Confidence(ms[0]), Confidence(ms[1]), Confidence(ms[2])).0 == KnownIntents[k]
    ensures ms[k] > 0 && Choose(Confidence(ms[0]), Confidence(ms[1]), Confidence(ms[2])).1 == Score(ms[k])
    ensures forall j :: 0 <= j < 3 ==> ms[j] <= ms[k]
    ensures forall j :: 0 <= j < k ==> ms[j] < ms[k]
  {
    forall i, j | 0 <= i < 3 && 0 <= j < 3
      ensures Confidence(ms[i]) < Confidence(ms[j]) <==> ms[i] < ms[j]
    {
      ScoreOrder(ms[i], ms[j]);
    }
  }

  /** On the counts that can occur (at most three keywords), a larger count means a strictly larger candidate confidence. */
  lemma ScoreOrder(a: nat, b: nat)
    requires a <= 3 && b <= 3
    ensures Confidence(a) < Confidence(b) <==> a < b
    ensures a > 0 ==> Score(a) > DefaultConfidence
  {
  }

  // ===========================================================================
  // parse_casual_datetime

  /** The 24-hour reading of a clock match: 12 is added for "pm" before noon only, so "12am" stays 12. */
  function TwentyFourHour(c: Clock): nat {
    if c.pm && c.hour < 12 then c.hour + 12 else c.hour
  }

  /** The first clock-like match in lower-cased text, if any. */
  function FirstClock(t: string): Option<Clock> {
    Hit(Search(ClockAt, t, 0))
  }

  /**
   * parse_casual_datetime with the clock read as `now`. Ok(None) is "not a
   * casual date"; `Raised` is the ValueError of `dt.replace` or the
   * OverflowError of the date addition, which the function does not catch.
   * The time is formatted by the caller with `IsoFormat`.
   */
  function CasualDateTime(text: string, now: DateTime): (r: Try<Option<DateTime>>)
    requires Valid(now)
    ensures r.Ok? && r.value.Some? ==>
      Valid(r.value.value) && DayNumber(now) < DayNumber(r.value.value) <= DayNumber(now) + 2
  {
    var t := Lower(text);
    if Contains(t, "tomorrow") then
      match AddDays(now, 1)
      case None => Raised("date value out of range")
      case Some(dt) =>
        match FirstClock(t)
        case None => Ok(Some(dt))
        case Some(c) =>
          var hour := TwentyFourHour(c);
          var minute := c.minute.GetOr(0);
          if hour > 23 then Raised("hour must be in 0..23")
          else if minute > 59 then Raised("minute must be in 0..59")
          else Ok(Some(dt.(hour := hour, minute := minute, second := 0, microsecond := 0)))
    else if Contains(t, "day after tomorrow") then
      match AddDays(now, 2)
      case None => Raised("date value out of range")
      case Some(dt) => Ok(Some(dt))
    else
      Ok(None)
  }

  /** Every text with "day after tomorrow" also contains "tomorrow", so the second branch is never taken. */
  lemma DayAfterTomorrowUnreachable(t: string)
    ensures Contains(t, "day after tomorrow") ==> Contains(t, "tomorrow")
  {
    if Contains(t, "day after tomorrow") {
      var i: nat :| i <= |t| && OccursAt(t, "day after tomorrow", i);
      assert "day after tomorrow" == "day after " + "tomorrow";
      OccursAtSuffix(t, "day after ", "tomorrow", i);
    }
  }

  /** The resolver gives up (None) exactly when "tomorrow" does not occur in the lower-cased text. */
  lemma CasualNoneIff(text: string, now: DateTime)
    requires Valid(now)
    ensures CasualDateTime(text, now) == Ok(None) <==> !Contains(Lower(text), "tomorrow")
  {
    DayAfterTomorrowUnreachable(Lower(text));
  }

  /** The clock-like match exists exactly when the text holds a digit. */
  lemma FirstClockIff(t: string)
    ensures FirstClock(t).Some? <==> exists i :: 0 <= i < |t| && IsDigit(t[i])
  {
    if exists i :: 0 <= i < |t| && IsDigit(t[i]) {
      var i :| 0 <= i < |t| && IsDigit(t[i]);
      assert ClockAt(t, i).Some?;
    }
  }

  /**
   * For a "tomorrow" text the result is one day after `now`, never two. With no
   * clock in the text it keeps `now`'s time of day; otherwise hour and minute
   * come from the first clock match and seconds and microseconds are zero. It
   * raises exactly when the date overflows or the clock is out of range.
   */
  lemma CasualTomorrow(text: string, now: DateTime)
    requires Valid(now) && Contains(Lower(text), "tomorrow")
    ensures var r := CasualDateTime(text, now);
      var c := FirstClock(Lower(text));
      (r.Raised? <==>
        DayNumber(now) == DayNumber(LastDay)
        || (c.Some? && (TwentyFourHour(c.value) > 23 || c.value.minute.GetOr(0) > 59)))
      && (r.Ok? ==> r.value.Some? && Valid(r.value.value) && DayNumber(r.value.value) == DayNumber(now) + 1)
      && (r.Ok? && c.None? ==> SameClock(r.value.value, now))
      && (r.Ok? && c.Some? ==>
            r.value.value.hour == TwentyFourHour(c.value) && r.value.value.minute == c.value.minute.GetOr(0)
            && r.value.value.second == 0 && r.value.value.microsecond == 0)
  {
  }

  /** "tomorrow 5pm" at 2025-01-01T00:00:00 resolves to 2025-01-02T17:00:00. */
  lemma CasualExample()
    ensures CasualDateTime("tomorrow 5pm", DateTime(2025, 1, 1, 0, 0, 0, 0)) == Ok(Some(DateTime(2025, 1, 2, 17, 0, 0, 0)))
  {
    var text := "tomorrow 5pm";
    assert Lower(text) == text;
    assert OccursAt(text, "tomorrow", 0);
    ExampleNextDay();
    ExampleClock();
  }

  /** One day after 2025-01-01T00:00:00. */
  lemma ExampleNextDay()
    ensures AddDays(DateTime(2025, 1, 1, 0, 0, 0, 0), 1) == Some(DateTime(2025, 1, 2, 0, 0, 0, 0))
  {
    assert NextDay(DateTime(2025, 1, 1, 0, 0, 0, 0)) == Some(DateTime(2025, 1, 2, 0, 0, 0, 0));
  }

  /** The first clock in "tomorrow 5pm" is five o'clock pm with no minutes. */
  lemma ExampleClock()
    ensures FirstClock("tomorrow 5pm") == Some(Clock(5, None, true))
  {
    ExampleNoClockBefore();
    ExampleClockAt();
    SearchFinds(ClockAt, "tomorrow 5pm", 0, 9);
  }

  /** No clock starts in the word "tomorrow " of the example. */
  lemma ExampleNoClockBefore()
    ensures forall j :: 0 <= j < 9 ==> ClockAt("tomorrow 5pm", j).None?
  {
    var text := "tomorrow 5pm";
    assert text[..9] == "tomorrow ";
    forall j | 0 <= j < 9
      ensures !IsDigit(text[j])
    {
      assert text[j] == text[..9][j];
    }
  }

  /** The clock pattern read at the digit of "tomorrow 5pm". */
  lemma ExampleClockAt()
    ensures ClockAt("tomorrow 5pm", 9) == Some(Clock(5, None, true))
  {
    var text := "tomorrow 5pm";
    assert RunEnd(text, 10, IsSpace) == 10;
    assert OccursAt(text, "pm", 10);
    assert text[9..10] == "5";
    assert DecimalValue("5") == 5;
  }

  /** The resolved example formats as 2025-01-02T17:00:00. */
  lemma IsoExample()
    ensures IsoFormat(DateTime(2025, 1, 2, 17, 0, 0, 0)) == "2025-01-02T17:00:00"
  {
    var t := DateTime(2025, 1, 2, 17, 0, 0, 0);
    ExampleDatePart();
    ExampleTimePart();
    assert Fraction(t) == "";
  }

  lemma ExampleDatePart()
    ensures DatePart(DateTime(2025, 1, 2, 17, 0, 0, 0)) == "2025-01-02"
  {
    assert Pad(2025, 4) == "2025";
    assert Pad(1, 2) == "01";
    assert Pad(2, 2) == "02";
  }

  lemma ExampleTimePart()
    ensures TimePart(DateTime(2025, 1, 2, 17, 0, 0, 0)) == "17:00:00"
  {
    assert Pad(17, 2) == "17";
    assert Pad(0, 2) == "00";
  }

  // ===========================================================================
  // extract_entities

  /** The keys of the entities dictionary. */
  datatype Field = Name | Phone | City | LeadId | VisitTime | Status | Source | Notes

  const AllFields: set<Field> := {Name, Phone, City, LeadId, VisitTime, Status, Source, Notes}

  /** The dictionary key of a field. */
  function Key(f: Field): string {
    match f
    case Name => "name"
    case Phone => "phone"
    case City => "city"
    case LeadId => "lead_id"
    case VisitTime => "visit_time"
    case Status => "status"
    case Source => "source"
    case Notes => "notes"
  }

  /** Entity values by field; None is Python's None, an absent key a key the dictionary does not hold. */
  type Entities = map<Field, Option<string>>

  /** The value stored under a field, None when the key is absent. */
  function Lookup(e: Entities, f: Field): Option<string> {
    if f in e then e[f] else None
  }

  /** `{"type": "VALIDATION_ERROR", "missing_fields": [...]}` */
  datatype ValidationError = ValidationError(missingFields: seq<Field>)

  /** The pair `extract_entities` returns. */
  datatype Extraction = Extraction(entities: Entities, error: Option<ValidationError>)

  const Cities: seq<string> := ["Mumbai", "Delhi", "Gurgaon", "Bangalore", "Chennai", "Kolkata", "Pune"]

  const StatusOptions: seq<string> := ["NEW", "IN_PROGRESS", "FOLLOW_UP", "WON", "LOST"]

  /** The index of the first option from `i` on whose lower-case form occurs in `t`, or |options|. */
  function FirstListedFrom(options: seq<string>, t: string, i: nat): (k: nat)
    requires i <= |options|
    ensures i <= k <= |options|
    ensures k < |options| ==> Contains(t, Lower(options[k]))
    ensures forall j :: i <= j < k ==> !Contains(t, Lower(options[j]))
    decreases |options| - i
  {
    if i == |options| || Contains(t, Lower(options[i])) then i else FirstListedFrom(options, t, i + 1)
  }

  /** The first listed option mentioned in the transcript, ignoring ASCII case. */
  function FirstListed(options: seq<string>, transcript: string): Option<string> {
    var k := FirstListedFrom(options, Lower(transcript), 0);
    if k < |options| then Some(options[k]) else None
  }

  /** The option found is the first one mentioned, and none is found only when no option is mentioned. */
  lemma FirstListedMeans(options: seq<string>, transcript: string)
    ensures var r := FirstListed(options, transcript);
      (r.Some? ==>
        exists k :: 0 <= k < |options| && r.value == options[k]
          && Contains(Lower(transcript), Lower(options[k]))
          && forall j :: 0 <= j < k ==> !Contains(Lower(transcript), Lower(options[j])))
      && (r.None? <==> forall j :: 0 <= j < |options| ==> !Contains(Lower(transcript), Lower(options[j])))
  {
    var k := FirstListedFrom(options, Lower(transcript), 0);
    if k < |options| {
      assert options[k] == FirstListed(options, transcript).value;
    }
  }

  /** The `for s in STATUS_OPTIONS` and `for city in CITIES` loops, which stop at the first option found. */
  method FindFirstListed(options: seq<string>, transcript: string) returns (found: Option<string>)
    ensures found == FirstListed(options, transcript)
  {
    found := None;
    var i := 0;
    while i < |options|
      invariant 0 <= i <= |options|
      invariant forall j :: 0 <= j < i ==> !Contains(Lower(transcript), Lower(options[j]))
    {
      if Contains(Lower(transcript), Lower(options[i])) {
        found := Some(options[i]);
        break;
      }
      i := i + 1;
    }
  }

  /** The fields each intent needs, in the order the extractor reports them missing. */
  function Required(intent: Intent): seq<Field> {
    match intent
    case LeadCreate => [Phone, Name, City]
    case VisitSchedule => [LeadId, VisitTime]
    case LeadUpdate => [LeadId, Status]
    case _ => []
  }

  /** `a` is `b` with some elements left out, order kept. */
  predicate Subsequence<T(==)>(a: seq<T>, b: seq<T>)
    decreases |b|
  {
    a == [] || (b != [] && if a[0] == b[0] then Subsequence(a[1..], b[1..]) else Subsequence(a, b[1..]))
  }

  /** One slot of the missing-fields list: the field when its entity is empty. */
  function MissingSlot(f: Field, v: Option<string>): seq<Field> {
    if v.None? then [f] else []
  }

  /** The fields of `fields` with no value in `entities`. */
  function MissingFrom(fields: seq<Field>, entities: Entities): (r: seq<Field>)
    ensures forall f :: f in r <==> f in fields && Lookup(entities, f).None?
    ensures Subsequence(r, fields)
  {
    if fields == [] then []
    else
      var slot := MissingSlot(fields[0], Lookup(entities, fields[0]));
      var rest := MissingFrom(fields[1..], entities);
      assert Subsequence(slot + rest, fields) by {
        if slot == [] {
          assert slot + rest == rest;
          assert rest != [] ==> rest[0] in rest;
        } else {
          assert (slot + rest)[1..] == rest;
        }
      }
      slot + rest
  }

  /** A string value counts only when it is truthy, as in `if dt:`. */
  function Truthy(o: Option<string>): (r: Option<string>)
    ensures r.Some? <==> o.Some? && o.value != ""
    ensures r.Some? ==> r == o
  {
    if o.Some? && o.value != "" then o else None
  }

  /** The phrase after "at", stripped, when the transcript has an at-clause. */
  function AtPhrase(transcript: string): Option<string> {
    match Search(AtClauseAt, transcript, 0)
    case None => None
    case Some(f) => Some(Strip(f.hit))
  }

  /**
   * The visit time: the casual resolver first, formatted as ISO 8601, and the
   * date-parser oracle only when that gives up; an exception propagates.
   */
  function VisitTimeOf(transcript: string, now: DateTime, dateParser: string -> Option<string>): Try<Option<string>>
    requires Valid(now)
  {
    match AtPhrase(transcript)
    case None => Ok(None)
    case Some(phrase) =>
      match CasualDateTime(phrase, now)
      case Raised(m) => Raised(m)
      case Ok(Some(dt)) => Ok(Some(IsoFormat(dt)))
      case Ok(None) => Ok(Truthy(dateParser(phrase)))
  }

  /** The notes group, stripped. */
  function NotesOf(transcript: string): Option<string> {
    match Search(NotesAt, transcript, 0)
    case None => None
    case Some(f) => Some(Strip(f.hit))
  }

  /** A dictionary holding all eight keys. */
  function EntitiesOf(name: Option<string>, phone: Option<string>, city: Option<string>, leadId: Option<string>,
                      visitTime: Option<string>, status: Option<string>, source: Option<string>, notes: Option<string>): Entities
  {
    map[Name := name, Phone := phone, City := city, LeadId := leadId,
        VisitTime := visitTime, Status := status, Source := source, Notes := notes]
  }

  /** The entities dictionary the extractor fills for an intent whose visit time is `visit`. */
  function EntitiesFor(transcript: string, intent: Intent, visit: Option<string>): Entities {
    EntitiesOf(
      if intent == LeadCreate then Hit(Search(NameAt, transcript, 0)) else None,
      Hit(Search(PhoneAt, transcript, 0)),
      if intent == LeadCreate then FirstListed(Cities, transcript) else None,
      Hit(Search(UuidAt, transcript, 0)),
      visit,
      if intent == LeadUpdate then FirstListed(StatusOptions, transcript) else None,
      if intent == LeadCreate then Hit(Search(SourceAt, transcript, 0)) else None,
      if intent == VisitSchedule || intent == LeadUpdate then NotesOf(transcript) else None)
  }

  /**
   * What `extract_entities` returns for a transcript and an intent: every
   * pattern the intent calls for, and a validation error naming the required
   * fields left empty, or the exception the casual resolver raised.
   */
  function Extracted(transcript: string, intent: Intent, now: DateTime, dateParser: string -> Option<string>): (r: Try<Extraction>)
    requires Valid(now)
    ensures r.Raised? ==> intent == VisitSchedule
    ensures r.Ok? && r.value.error.Some? ==> r.value.error.value.missingFields != []
  {
    var visit := if intent == VisitSchedule then VisitTimeOf(transcript, now, dateParser) else Ok(None);
    match visit
    case Raised(m) => Raised(m)
    case Ok(v) =>
      var entities := EntitiesFor(transcript, intent, v);
      var missing := MissingFrom(Required(intent), entities);
      Ok(Extraction(entities, if missing == [] then None else Some(ValidationError(missing))))
  }

  /** The last field of a list contributes its own slot and nothing after it. */
  lemma MissingLast(f: Field, e: Entities)
    ensures MissingFrom([f], e) == MissingSlot(f, Lookup(e, f))
  {
    assert [f][1..] == [];
    assert MissingSlot(f, Lookup(e, f)) + [] == MissingSlot(f, Lookup(e, f));
  }

  lemma MissingTwo(f: Field, g: Field, e: Entities)
    ensures MissingFrom([f, g], e) == MissingSlot(f, Lookup(e, f)) + MissingSlot(g, Lookup(e, g))
  {
    MissingLast(g, e);
    assert [f, g][1..] == [g];
  }

  lemma MissingThree(f: Field, g: Field, h: Field, e: Entities)
    ensures MissingFrom([f, g, h], e) == MissingSlot(f, Lookup(e, f)) + MissingSlot(g, Lookup(e, g)) + MissingSlot(h, Lookup(e, h))
  {
    MissingTwo(g, h, e);
    assert [f, g, h][1..] == [g, h];
  }

  /** The missing-fields list of each intent, slot by slot in the order the extractor checks. */
  lemma MissingUnrolled(intent: Intent, name: Option<string>, phone: Option<string>, city: Option<string>, leadId: Option<string>,
                        visitTime: Option<string>, status: Option<string>, source: Option<string>, notes: Option<string>)
    ensures MissingFrom(Required(intent), EntitiesOf(name, phone, city, leadId, visitTime, status, source, notes)) ==
      match intent
      case LeadCreate => MissingSlot(Phone, phone) + MissingSlot(Name, name) + MissingSlot(City, city)
      case VisitSchedule => MissingSlot(LeadId, leadId) + MissingSlot(VisitTime, visitTime)
      case LeadUpdate => MissingSlot(LeadId, leadId) + MissingSlot(Status, status)
      case _ => []
  {
    var e := EntitiesOf(name, phone, city, leadId, visitTime, status, source, notes);
    EntitiesOfSlots(name, phone, city, leadId, visitTime, status, source, notes);
    match intent
    case LeadCreate => MissingThree(Phone, Name, City, e);
    case VisitSchedule => MissingTwo(LeadId, VisitTime, e);
    case LeadUpdate => MissingTwo(LeadId, Status, e);
    case _ =>
  }

  /** The missing-fields list built check by check, in the order the extractor appends to it. */
  function MissingSteps(intent: Intent, name: Option<string>, phone: Option<string>, city: Option<string>,
                        leadId: Option<string>, visitTime: Option<string>, status: Option<string>): seq<Field>
  {
    var afterPhone: seq<Field> := if intent == LeadCreate && phone.None? then [] + [Phone] else [];
    var afterLeadId := if (intent == VisitSchedule || intent == LeadUpdate) && leadId.None? then afterPhone + [LeadId] else afterPhone;
    var afterVisit := if intent == VisitSchedule && visitTime.None? then afterLeadId + [VisitTime] else afterLeadId;
    var afterStatus := if intent == LeadUpdate && status.None? then afterVisit + [Status] else afterVisit;
    var afterName := if intent == LeadCreate && name.None? then afterStatus + [Name] else afterStatus;
    if intent == LeadCreate && city.None? then afterName + [City] else afterName
  }

  /** Appending a field when its slot is empty is concatenating its missing slot. */
  lemma AppendSlot(xs: seq<Field>, f: Field, v: Option<string>)
    ensures (if v.None? then xs + [f] else xs) == xs + MissingSlot(f, v)
  {
    if v.Some? {
      assert xs + [] == xs;
    }
  }

  /** Checking field by field lists the same fields, in the same order, as the intent's required fields left empty. */
  lemma MissingStepsRequired(intent: Intent, name: Option<string>, phone: Option<string>, city: Option<string>, leadId: Option<string>,
                             visitTime: Option<string>, status: Option<string>, source: Option<string>, notes: Option<string>)
    ensures MissingSteps(intent, name, phone, city, leadId, visitTime, status)
         == MissingFrom(Required(intent), EntitiesOf(name, phone, city, leadId, visitTime, status, source, notes))
  {
    MissingUnrolled(intent, name, phone, city, leadId, visitTime, status, source, notes);
    match intent
    case LeadCreate => StepsCreate(name, phone, city, leadId, visitTime, status);
    case VisitSchedule => StepsVisit(name, phone, city, leadId, visitTime, status);
    case LeadUpdate => StepsUpdate(name, phone, city, leadId, visitTime, status);
    case _ =>
  }

  lemma StepsCreate(name: Option<string>, phone: Option<string>, city: Option<string>,
                    leadId: Option<string>, visitTime: Option<string>, status: Option<string>)
    ensures MissingSteps(LeadCreate, name, phone, city, leadId, visitTime, status)
         == MissingSlot(Phone, phone) + MissingSlot(Name, name) + MissingSlot(City, city)
  {
    AppendSlot([], Phone, phone);
    assert [] + MissingSlot(Phone, phone) == MissingSlot(Phone, phone);
    AppendSlot(MissingSlot(Phone, phone), Name, name);
    AppendSlot(MissingSlot(Phone, phone) + MissingSlot(Name, name), City, city);
  }

  lemma StepsVisit(name: Option<string>, phone: Option<string>, city: Option<string>,
                   leadId: Option<string>, visitTime: Option<string>, status: Option<string>)
    ensures MissingSteps(VisitSchedule, name, phone, city, leadId, visitTime, status)
         == MissingSlot(LeadId, leadId) + MissingSlot(VisitTime, visitTime)
  {
    AppendSlot([], LeadId, leadId);
    assert [] + MissingSlot(LeadId, leadId) == MissingSlot(LeadId, leadId);
    AppendSlot(MissingSlot(LeadId, leadId), VisitTime, visitTime);
  }

  lemma StepsUpdate(name: Option<string>, phone: Option<string>, city: Option<string>,
                    leadId: Option<string>, visitTime: Option<string>, status: Option<string>)
    ensures MissingSteps(LeadUpdate, name, phone, city, leadId, visitTime, status)
         == MissingSlot(LeadId, leadId) + MissingSlot(Status, status)
  {
    AppendSlot([], LeadId, leadId);
    assert [] + MissingSlot(LeadId, leadId) == MissingSlot(LeadId, leadId);
    AppendSlot(MissingSlot(LeadId, leadId), Status, status);
  }

  /**
   * The VISIT_SCHEDULE section of extract_entities: the at-clause phrase
   * resolved casually, else by the date parser, and the notes.
   */
  method ExtractVisitFields(transcript: string, now: DateTime, dateParser: string -> Option<string>)
    returns (visitTime: Try<Option<string>>, notes: Option<string>)
    requires Valid(now)
    ensures visitTime == VisitTimeOf(transcript, now, dateParser)
    ensures notes == NotesOf(transcript)
  {
    visitTime := Ok(None);
    var timeMatch := Search(AtClauseAt, transcript, 0);
    if timeMatch.Some? {
      var phrase := Strip(timeMatch.value.hit);
      var casual := CasualDateTime(phrase, now);
      if casual.Raised? {
        visitTime := Raised(casual.message);
      } else {
        var dt := if casual.value.Some? then Some(IsoFormat(casual.value.value)) else dateParser(phrase);
        if dt.Some? && dt.value != "" {
          visitTime := Ok(dt);
        }
      }
    }
    notes := None;
    var notesMatch := Search(NotesAt, transcript, 0);
    if notesMatch.Some? {
      notes := Some(Strip(notesMatch.value.hit));
    }
  }

  /** The LEAD_UPDATE section of extract_entities: the first status mentioned, and the notes. */
  method ExtractUpdateFields(transcript: string) returns (status: Option<string>, notes: Option<string>)
    ensures status == FirstListed(StatusOptions, transcript)
    ensures notes == NotesOf(transcript)
  {
    status := FindFirstListed(StatusOptions, transcript);
    notes := None;
    var notesMatch := Search(NotesAt, transcript, 0);
    if notesMatch.Some? {
      notes := Some(Strip(notesMatch.value.hit));
    }
  }

  /** The LEAD_CREATE section of extract_entities: the name, the first city mentioned, and the source. */
  method ExtractCreateFields(transcript: string) returns (name: Option<string>, city: Option<string>, source: Option<string>)
    ensures name == Hit(Search(NameAt, transcript, 0))
    ensures city == FirstListed(Cities, transcript)
    ensures source == Hit(Search(SourceAt, transcript, 0))
  {
    name := None;
    var nameMatch := Search(NameAt, transcript, 0);
    if nameMatch.Some? {
      name := Some(nameMatch.value.hit);
    }
    city := FindFirstListed(Cities, transcript);
    source := None;
    var sourceMatch := Search(SourceAt, transcript, 0);
    if sourceMatch.Some? {
      source := Some(sourceMatch.value.hit);
    }
  }

  /**
   * extract_entities: fills the eight dictionary slots and the list of
   * missing fields section by section; a required field is reported missing
   * where its section leaves it empty.
   */
  method ExtractEntities(transcript: string, intent: Intent, now: DateTime, dateParser: string -> Option<string>)
    returns (r: Try<Extraction>)
    requires Valid(now)
    ensures r == Extracted(transcript, intent, now, dateParser)
  {
    var name, phone, city, leadId, visitTime, status, source, notes: Option<string>
      := None, None, None, None, None, None, None, None;
    var errorFields: seq<Field> := [];

    var phoneMatch := Search(PhoneAt, transcript, 0);
    if phoneMatch.Some? {
      phone := Some(phoneMatch.value.hit);
    } else if intent == LeadCreate {
      errorFields := errorFields + [Phone];
    }

    var leadIdMatch := Search(UuidAt, transcript, 0);
    if leadIdMatch.Some? {
      leadId := Some(leadIdMatch.value.hit);
    } else if intent == VisitSchedule || intent == LeadUpdate {
      errorFields := errorFields + [LeadId];
    }

    if intent == VisitSchedule {
      var visit;
      visit, notes := ExtractVisitFields(transcript, now, dateParser);
      if visit.Raised? {
        return Raised(visit.message);
      }
      visitTime := visit.value;
      if visitTime.None? {
        errorFields := errorFields + [VisitTime];
      }
    } else if intent == LeadUpdate {
      status, notes := ExtractUpdateFields(transcript);
      if status.None? {
        errorFields := errorFields + [Status];
      }
    } else if intent == LeadCreate {
      name, city, source := ExtractCreateFields(transcript);
      if name.None? {
        errorFields := errorFields + [Name];
      }
      if city.None? {
        errorFields := errorFields + [City];
      }
    }

    assert errorFields == MissingSteps(intent, name, phone, city, leadId, visitTime, status);
    ExtractedOfSlots(transcript, intent, now, dateParser, name, phone, city, leadId, visitTime, status, source, notes);
    var entities := EntitiesOf(name, phone, city, leadId, visitTime, status, source, notes);
    r := Ok(Extraction(entities, if errorFields == [] then None else Some(ValidationError(errorFields))));
  }

  /** The extraction assembled from the eight slots the extractor fills and the list of fields it found missing. */
  lemma ExtractedOfSlots(transcript: string, intent: Intent, now: DateTime, dateParser: string -> Option<string>,
                         name: Option<string>, phone: Option<string>, city: Option<string>, leadId: Option<string>,
                         visitTime: Option<string>, status: Option<string>, source: Option<string>, notes: Option<string>)
    requires Valid(now)
    requires intent == VisitSchedule ==> VisitTimeOf(transcript, now, dateParser) == Ok(visitTime)
    requires intent != VisitSchedule ==> visitTime.None?
    requires name == (if intent == LeadCreate then Hit(Search(NameAt, transcript, 0)) else None)
    requires phone == Hit(Search(PhoneAt, transcript, 0))
    requires city == (if intent == LeadCreate then FirstListed(Cities, transcript) else None)
    requires leadId == Hit(Search(UuidAt, transcript, 0))
    requires status == (if intent == LeadUpdate then FirstListed(StatusOptions, transcript) else None)
    requires source == (if intent == LeadCreate then Hit(Search(SourceAt, transcript, 0)) else None)
    requires notes == (if intent == VisitSchedule || intent == LeadUpdate then NotesOf(transcript) else None)
    ensures var missing := MissingSteps(intent, name, phone, city, leadId, visitTime, status);
      Extracted(transcript, intent, now, dateParser)
        == Ok(Extraction(EntitiesOf(name, phone, city, leadId, visitTime, status, source, notes),
                         if missing == [] then None else Some(ValidationError(missing))))
  {
    MissingStepsRequired(intent, name, phone, city, leadId, visitTime, status, source, notes);
  }

  /**
   * The validation error lists exactly the required fields left empty, in
   * the order of `Required`, and is present exactly when one is.
   */
  lemma ExtractedErrors(transcript: string, intent: Intent, now: DateTime, dateParser: string -> Option<string>)
    requires Valid(now) && Extracted(transcript, intent, now, dateParser).Ok?
    ensures var x := Extracted(transcript, intent, now, dateParser).value;
      (x.error.Some? <==> exists f :: f in Required(intent) && Lookup(x.entities, f).None?)
      && (x.error.Some? ==>
            (forall f :: f in x.error.value.missingFields <==> f in Required(intent) && Lookup(x.entities, f).None?)
            && Subsequence(x.error.value.missingFields, Required(intent)))
  {
    var x := Extracted(transcript, intent, now, dateParser).value;
    var missing := MissingFrom(Required(intent), x.entities);
    if exists f :: f in Required(intent) && Lookup(x.entities, f).None? {
      var f :| f in Required(intent) && Lookup(x.entities, f).None?;
      assert f in missing;
    }
    if missing != [] {
      assert missing[0] in missing;
    }
  }

  /**
   * All eight keys are always present. Name, city and source are looked for
   * only for LEAD_CREATE, the visit time only for VISIT_SCHEDULE, the status
   * only for LEAD_UPDATE and notes only for those two; an intent outside the
   * three yields only phone and lead id and never a validation error.
   */
  lemma ExtractedGating(transcript: string, intent: Intent, now: DateTime, dateParser: string -> Option<string>)
    requires Valid(now) && Extracted(transcript, intent, now, dateParser).Ok?
    ensures var x := Extracted(transcript, intent, now, dateParser).value;
      x.entities.Keys == AllFields
      && (intent != LeadCreate ==> x.entities[Name].None? && x.entities[City].None? && x.entities[Source].None?)
      && (intent != VisitSchedule ==> x.entities[VisitTime].None?)
      && (intent != LeadUpdate ==> x.entities[Status].None?)
      && (intent != VisitSchedule && intent != LeadUpdate ==> x.entities[Notes].None?)
      && (intent !in KnownIntents ==> x.error.None?)
  {
    var visit := if intent == VisitSchedule then VisitTimeOf(transcript, now, dateParser).value else None;
    assert Extracted(transcript, intent, now, dateParser).value.entities == EntitiesFor(transcript, intent, visit);
    EntitiesForGating(transcript, intent, visit);
  }

  /** Each of the eight keys of `EntitiesFor` holds the slot its intent calls for. */
  lemma EntitiesForSlots(transcript: string, intent: Intent, visit: Option<string>)
    ensures var e := EntitiesFor(transcript, intent, visit);
      e.Keys == AllFields
      && e[Name] == (if intent == LeadCreate then Hit(Search(NameAt, transcript, 0)) else None)
      && e[Phone] == Hit(Search(PhoneAt, transcript, 0))
      && e[City] == (if intent == LeadCreate then FirstListed(Cities, transcript) else None)
      && e[LeadId] == Hit(Search(UuidAt, transcript, 0))
      && e[VisitTime] == visit
      && e[Status] == (if intent == LeadUpdate then FirstListed(StatusOptions, transcript) else None)
      && e[Source] == (if intent == LeadCreate then Hit(Search(SourceAt, transcript, 0)) else None)
      && e[Notes] == (if intent == VisitSchedule || intent == LeadUpdate then NotesOf(transcript) else None)
  {
    var name := if intent == LeadCreate then Hit(Search(NameAt, transcript, 0)) else None;
    var city := if intent == LeadCreate then FirstListed(Cities, transcript) else None;
    var status := if intent == LeadUpdate then FirstListed(StatusOptions, transcript) else None;
    var source := if intent == LeadCreate then Hit(Search(SourceAt, transcript, 0)) else None;
    var notes := if intent == VisitSchedule || intent == LeadUpdate then NotesOf(transcript) else None;
    var phone, leadId := Hit(Search(PhoneAt, transcript, 0)), Hit(Search(UuidAt, transcript, 0));
    EntitiesOfSlots(name, phone, city, leadId, visit, status, source, notes);
  }

  /** The eight keys are always present, the visit slot holds the visit time, and each other slot is empty outside the intents that look for it. */
  lemma EntitiesForGating(transcript: string, intent: Intent, visit: Option<string>)
    ensures var e := EntitiesFor(transcript, intent, visit);
      e.Keys == AllFields && e[VisitTime] == visit
      && (intent != LeadCreate ==> e[Name].None? && e[City].None? && e[Source].None?)
      && (intent != LeadUpdate ==> e[Status].None?)
      && (intent != VisitSchedule && intent != LeadUpdate ==> e[Notes].None?)
  {
    EntitiesForSlots(transcript, intent, visit);
  }

  /** The dictionary has exactly the eight keys, each holding its slot. */
  lemma EntitiesOfSlots(name: Option<string>, phone: Option<string>, city: Option<string>, leadId: Option<string>,
                        visitTime: Option<string>, status: Option<string>, source: Option<string>, notes: Option<string>)
    ensures var e := EntitiesOf(name, phone, city, leadId, visitTime, status, source, notes);
      e.Keys == AllFields
      && e[Name] == name && e[Phone] == phone && e[City] == city && e[LeadId] == leadId
      && e[VisitTime] == visitTime && e[Status] == status && e[Source] == source && e[Notes] == notes
  {
  }

  /**
   * The phone entity has one of the three shapes and occurs in the
   * transcript; it is missing only when no ten digits stand together.
   */
  lemma PhoneShape(transcript: string, intent: Intent, visit: Option<string>)
    ensures var p := EntitiesFor(transcript, intent, visit)[Phone];
      (p.Some? ==> IsPhone(p.value) && Contains(transcript, p.value))
      && (p.None? ==> forall i :: 0 <= i <= |transcript| ==> !DigitsAt(transcript, i, 10))
  {
    assert EntitiesFor(transcript, intent, visit)[Phone] == Hit(Search(PhoneAt, transcript, 0)) by {
      EntitiesForSlots(transcript, intent, visit);
    }
    var m := Search(PhoneAt, transcript, 0);
    if m.Some? {
      assert OccursAt(transcript, m.value.hit, m.value.start);
    } else {
      forall i | 0 <= i <= |transcript|
        ensures !DigitsAt(transcript, i, 10)
      {
        assert PhoneAt(transcript, i).None?;
      }
    }
  }

  /** The lead id has the canonical UUID shape and occurs in the transcript; it is missing only when no UUID does. */
  lemma LeadIdShape(transcript: string, intent: Intent, visit: Option<string>)
    ensures var u := EntitiesFor(transcript, intent, visit)[LeadId];
      (u.Some? ==> IsUuid(u.value) && Contains(transcript, u.value))
      && (u.None? ==> forall i, j :: 0 <= i <= j <= |transcript| ==> !IsUuid(transcript[i..j]))
  {
    assert EntitiesFor(transcript, intent, visit)[LeadId] == Hit(Search(UuidAt, transcript, 0)) by {
      EntitiesForSlots(transcript, intent, visit);
    }
    var m := Search(UuidAt, transcript, 0);
    if m.Some? {
      assert OccursAt(transcript, m.value.hit, m.value.start);
    } else {
      forall i, j | 0 <= i <= j <= |transcript|
        ensures !IsUuid(transcript[i..j])
      {
        assert UuidAt(transcript, i).None? && OccursAt(transcript, transcript[i..j], i);
      }
    }
  }

  /**
   * For LEAD_CREATE the name is the leftmost capitalised two-word name, with
   * or without the "name" prefix, and the city the first listed city
   * mentioned; for LEAD_UPDATE the status is the first listed status mentioned.
   */
  lemma ListedShapes(transcript: string, intent: Intent, visit: Option<string>)
    ensures var e := EntitiesFor(transcript, intent, visit);
      e[Name] == (if intent == LeadCreate then Hit(Search(BareNameAt, transcript, 0)) else None)
      && (intent == LeadCreate ==> e[City] == FirstListed(Cities, transcript))
      && (intent == LeadUpdate ==> e[Status] == FirstListed(StatusOptions, transcript))
  {
    EntitiesForSlots(transcript, intent, visit);
    NamePrefixIrrelevant(transcript, 0);
  }

  /** A visit time, when found, is never empty. */
  lemma VisitTimeShape(transcript: string, now: DateTime, dateParser: string -> Option<string>)
    requires Valid(now)
    ensures var v := VisitTimeOf(transcript, now, dateParser);
      v.Ok? && v.value.Some? ==> v.value.value != ""
  {
    var v := VisitTimeOf(transcript, now, dateParser);
    if v.Ok? && v.value.Some? {
      match CasualDateTime(AtPhrase(transcript).value, now)
      case Ok(Some(dt)) =>
        assert |DatePart(dt)| > 0 by {
          assert |Pad(dt.year, 4)| == 4;
        }
      case _ =>
    }
  }

  /** Only a visit request can raise, and only through a "tomorrow" phrase in its at-clause. */
  lemma ExtractedRaises(transcript: string, intent: Intent, now: DateTime, dateParser: string -> Option<string>)
    requires Valid(now) && Extracted(transcript, intent, now, dateParser).Raised?
    ensures intent == VisitSchedule && AtPhrase(transcript).Some?
    ensures Contains(Lower(AtPhrase(transcript).value), "tomorrow")
  {
    CasualNoneIff(AtPhrase(transcript).value, now);
  }

  /**
   * The date-parser oracle is consulted only for a visit request whose
   * at-clause phrase has no "tomorrow": otherwise any two oracles give the same
   * extraction.
   */
  lemma DateParserOnlyFallback(transcript: string, intent: Intent, now: DateTime, dp1: string -> Option<string>, dp2: string -> Option<string>)
    requires Valid(now)
    requires intent != VisitSchedule || AtPhrase(transcript).None? || Contains(Lower(AtPhrase(transcript).value), "tomorrow")
    ensures Extracted(transcript, intent, now, dp1) == Extracted(transcript, intent, now, dp2)
  {
    if intent == VisitSchedule {
      assert VisitTimeOf(transcript, now, dp1) == VisitTimeOf(transcript, now, dp2) by {
        if AtPhrase(transcript).Some? {
          CasualNoneIff(AtPhrase(transcript).value, now);
        }
      }
    }
  }

  /**
   * The converse: for VISIT_SCHEDULE, an at-clause phrase without "tomorrow"
   * goes to the date parser, whose answer is the visit time when it is a
   * non-empty string; otherwise visit_time is reported missing.
   */
  lemma DateParserUsed(transcript: string, now: DateTime, dateParser: string -> Option<string>, phrase: string)
    requires Valid(now)
    requires AtPhrase(transcript) == Some(phrase) && !Contains(Lower(phrase), "tomorrow")
    ensures var r := Extracted(transcript, VisitSchedule, now, dateParser);
      r.Ok? && Lookup(r.value.entities, VisitTime) == Truthy(dateParser(phrase))
      && (Truthy(dateParser(phrase)).None? ==> r.value.error.Some? && VisitTime in r.value.error.value.missingFields)
  {
    CasualNoneIff(phrase, now);
    var v := Truthy(dateParser(phrase));
    assert VisitTimeOf(transcript, now, dateParser) == Ok(v);
    EntitiesForGating(transcript, VisitSchedule, v);
    ExtractedErrors(transcript, VisitSchedule, now, dateParser);
    assert VisitTime in Required(VisitSchedule);
  }

  // ---------------------------------------------------------------------------
  // The end-to-end test's transcript with no phone number

  /** "Add a new lead with no phone number", in the pieces the proofs below take apart. */
  const NoPhoneTranscript := "Add a " + "new lead" + " with no phone " + "number"

  lemma NoPhoneLower()
    ensures Lower(NoPhoneTranscript) == "add a " + "new lead" + " with no phone " + "number"
  {
    LowerAppend("Add a " + "new lead" + " with no phone ", "number");
    LowerAppend("Add a " + "new lead", " with no phone ");
    LowerAppend("Add a ", "new lead");
    LowerUnchanged("new lead");
    LowerUnchanged(" with no phone ");
    LowerUnchanged("number");
    assert Lower("Add a ") == "add a ";
  }

  /** "add" and "new lead" occur in the lower-cased transcript. */
  lemma NoPhoneKeywordsFound()
    ensures Contains(Lower(NoPhoneTranscript), "add") && Contains(Lower(NoPhoneTranscript), "new lead")
  {
    NoPhoneLower();
    assert OccursAt("add a ", "add", 0);
    ContainsLeft("add a ", "new lead", "add");
    ContainsLeft("add a " + "new lead", " with no phone ", "add");
    ContainsLeft("add a " + "new lead" + " with no phone ", "number", "add");
    assert OccursAt("new lead", "new lead", 0);
    ContainsRight("add a ", "new lead", "new lead");
    ContainsLeft("add a " + "new lead", " with no phone ", "new lead");
    ContainsLeft("add a " + "new lead" + " with no phone ", "number", "new lead");
  }

  /** No other keyword occurs in the lower-cased transcript. */
  lemma NoPhoneKeywordsAbsent()
    ensures var t := Lower(NoPhoneTranscript);
      !Contains(t, "create") && !Contains(t, "schedule") && !Contains(t, "fix") && !Contains(t, "visit")
      && !Contains(t, "update") && !Contains(t, "mark")
  {
    NoPhoneLower();
    NoPhoneLoweredAbsent();
  }

  /** The same, on the lower-cased pieces. */
  lemma NoPhoneLoweredAbsent()
    ensures var t := "add a " + "new lead" + " with no phone " + "number";
      !Contains(t, "create") && !Contains(t, "schedule") && !Contains(t, "fix") && !Contains(t, "visit")
      && !Contains(t, "update") && !Contains(t, "mark")
  {
    var x := "add a " + "new lead" + " with no phone ";
    NoPhoneLetters(x);
    NoPhoneHeadAbsent(x + "number");
    NoPhoneTailAbsent(x);
  }

  /** The letters the keyword proofs rely on being absent. */
  lemma NoPhoneLetters(x: string)
    requires x == "add a " + "new lead" + " with no phone "
    ensures 'c' !in x + "number" && 's' !in x + "number" && 'f' !in x + "number" && 'v' !in x + "number"
    ensures 'u' !in x && 'm' !in x
  {
    LettersAbsent("add a ");
    LettersAbsent("new lead");
    LettersAbsent(" with no phone ");
    assert "number"[0] == 'n' && "number"[1] == 'u' && "number"[2] == 'm';
    assert "number"[3] == 'b' && "number"[4] == 'e' && "number"[5] == 'r';
  }

  lemma LettersAbsent(s: string)
    requires forall i :: 0 <= i < |s| ==> s[i] in "adnewlithop "
    ensures 'c' !in s && 's' !in s && 'f' !in s && 'v' !in s && 'u' !in s && 'm' !in s
  {
  }

  /** "create", "schedule", "fix" and "visit" start with letters the transcript lacks. */
  lemma NoPhoneHeadAbsent(t: string)
    requires 'c' !in t && 's' !in t && 'f' !in t && 'v' !in t
    ensures !Contains(t, "create") && !Contains(t, "schedule") && !Contains(t, "fix") && !Contains(t, "visit")
  {
    AbsentFirst(t, "create");
    AbsentFirst(t, "schedule");
    AbsentFirst(t, "fix");
    AbsentFirst(t, "visit");
  }

  /** "update" and "mark" could only start in "number", and they do not. */
  lemma NoPhoneTailAbsent(x: string)
    requires 'u' !in x && 'm' !in x
    ensures !Contains(x + "number", "update") && !Contains(x + "number", "mark")
  {
    AbsentShort("number", "update");
    AbsentAfter(x, "number", "update");
    AbsentShort("mber", "mark");
    AbsentAfter("nu", "mber", "mark");
    assert "nu" + "mber" == "number";
    AbsentAfter(x, "number", "mark");
  }

  /** The keywords "add" and "new lead" give LEAD_CREATE with two matches, so 0.9. */
  lemma NoPhoneClassified()
    ensures Classification(NoPhoneTranscript) == (LeadCreate, 9)
  {
    NoPhoneKeywordsFound();
    NoPhoneKeywordsAbsent();
    var t := Lower(NoPhoneTranscript);
    assert MatchCount(t, ["new lead"][1..]) == 0;
    assert MatchCount(t, ["new lead"]) == 1;
    assert ["create", "new lead"][1..] == ["new lead"];
    assert MatchCount(t, ["create", "new lead"]) == 1;
    assert ["add", "create", "new lead"][1..] == ["create", "new lead"];
    assert MatchCount(t, Keywords(LeadCreate)) == 2;
    assert MatchCount(t, Keywords(VisitSchedule)) == 0;
    assert MatchCount(t, Keywords(LeadUpdate)) == 0;
  }

  /** A text without digits holds no phone number. */
  lemma NoDigitNoPhone(t: string)
    requires forall c :: c in t ==> !IsDigit(c)
    ensures Search(PhoneAt, t, 0).None?
  {
    forall i | 0 <= i <= |t|
      ensures PhoneAt(t, i).None?
    {
      if i < |t| {
        assert t[i] in t;
        assert !DigitsAt(t, i, 10);
      }
      if i + 3 < |t| {
        assert t[i + 3] in t;
        assert !DigitsAt(t, i + 3, 10);
      }
      if i + 4 < |t| {
        assert t[i + 4] in t;
        assert !DigitsAt(t, i + 4, 10);
      }
    }
  }

  /** The transcript has no digit in it. */
  lemma NoPhoneDigitless()
    ensures forall c :: c in NoPhoneTranscript ==> !IsDigit(c)
  {
    Digitless("Add a ");
    Digitless("new lead");
    Digitless(" with no phone ");
    Digitless("number");
  }

  lemma Digitless(s: string)
    requires forall i :: 0 <= i < |s| ==> !IsDigit(s[i])
    ensures forall c :: c in s ==> !IsDigit(c)
  {
  }

  /**
   * "Add a new lead with no phone number" is a LEAD_CREATE at 0.9 whose
   * rule-based result carries a validation error listing the phone.
   */
  lemma NoPhoneParsed(now: DateTime, dateParser: string -> Option<string>, llm: string -> LlmCall)
    requires Valid(now)
    ensures var r := Parsed(NoPhoneTranscript, now, dateParser, llm);
      r.Ok? && r.value.intent == LeadCreate && r.value.confidence == 9
      && r.value.error.Some? && Phone in r.value.error.value.missingFields
  {
    NoPhoneClassified();
    NoPhoneDigitless();
    NoDigitNoPhone(NoPhoneTranscript);
    CreateWithoutPhone(NoPhoneTranscript, now, dateParser, llm);
  }

  // ===========================================================================
  // extract_with_llm and parse_transcript

  /** The decoded JSON object of an LLM answer: its "intent" and "entities" keys, None when absent. */
  datatype LlmReply = LlmReply(intent: Option<string>, entities: Option<Entities>)

  /** The outcome of the OpenAI call and `json.loads`: an object, or any exception. */
  datatype LlmCall = Answered(reply: LlmReply) | CallFailed

  /** extract_with_llm: a failed call or a reply that is not JSON becomes UNKNOWN with no entities. */
  function ExtractWithLlm(call: LlmCall): (r: LlmReply)
    ensures call.CallFailed? ==> r == LlmReply(Some("UNKNOWN"), Some(map[]))
    ensures call.Answered? ==> r == call.reply
  {
    match call
    case Answered(reply) => reply
    case CallFailed => LlmReply(Some("UNKNOWN"), Some(map[]))
  }

  /** The dictionary `parse_transcript` returns. */
  datatype NluResult = NluResult(intent: Intent, confidence: nat, entities: Entities, error: Option<ValidationError>)

  /** The 0.7 reported for every LLM answer. */
  const LlmConfidence: nat := 7

  /** The fallback guard: UNKNOWN and every entity None. */
  predicate NothingFound(intent: Intent, entities: Entities) {
    intent == Unknown && forall f :: f in entities ==> entities[f].None?
  }

  /** The guard and both of its outcomes. */
  function Settle(transcript: string, intent: Intent, confidence: nat, x: Extraction, llm: string -> LlmCall): NluResult {
    if NothingFound(intent, x.entities) then
      var reply := ExtractWithLlm(llm(transcript));
      NluResult(IntentOfLabel(reply.intent.GetOr("UNKNOWN")), LlmConfidence, reply.entities.GetOr(map[]), None)
    else
      NluResult(intent, confidence, x.entities, x.error)
  }

  /** What `parse_transcript` returns, or the exception it lets through. */
  function Parsed(transcript: string, now: DateTime, dateParser: string -> Option<string>, llm: string -> LlmCall): (r: Try<NluResult>)
    requires Valid(now)
    ensures r.Raised? ==> Classification(transcript).0 == VisitSchedule
    ensures r.Ok? && r.value.error.Some? ==>
      r.value.intent == Classification(transcript).0 && r.value.confidence == Classification(transcript).1
  {
    var c := Classification(transcript);
    match Extracted(transcript, c.0, now, dateParser)
    case Raised(m) => Raised(m)
    case Ok(x) => Ok(Settle(transcript, c.0, c.1, x, llm))
  }

  /** parse_transcript: classify, extract, and fall back to the LLM only when the rules found nothing. */
  method ParseTranscript(transcript: string, now: DateTime, dateParser: string -> Option<string>, llm: string -> LlmCall)
    returns (r: Try<NluResult>)
    requires Valid(now)
    ensures r == Parsed(transcript, now, dateParser, llm)
  {
    var intent, confidence := ClassifyIntent(transcript);
    var extraction := ExtractEntities(transcript, intent, now, dateParser);
    if extraction.Raised? {
      return Raised(extraction.message);
    }
    var x := extraction.value;
    if NothingFound(intent, x.entities) {
      var reply := ExtractWithLlm(llm(transcript));
      r := Ok(NluResult(IntentOfLabel(reply.intent.GetOr("UNKNOWN")), LlmConfidence, reply.entities.GetOr(map[]), None));
    } else {
      r := Ok(NluResult(intent, confidence, x.entities, x.error));
    }
  }

  /** The rules found nothing: no keyword, no phone number and no UUID. */
  predicate FallbackTaken(transcript: string) {
    Classification(transcript).0 == Unknown && Search(PhoneAt, transcript, 0).None? && Search(UuidAt, transcript, 0).None?
  }

  /**
   * The guard holds exactly when no keyword, phone number or UUID is found;
   * whatever the oracles, the rule path then never raises.
   */
  lemma GuardIff(transcript: string, now: DateTime, dateParser: string -> Option<string>)
    requires Valid(now)
    ensures var c := Classification(transcript);
      var e := Extracted(transcript, c.0, now, dateParser);
      (e.Raised? ==> c.0 == VisitSchedule)
      && (e.Ok? ==> (NothingFound(c.0, e.value.entities) <==> FallbackTaken(transcript)))
  {
    var c := Classification(transcript);
    if c.0 == Unknown {
      var ents := EntitiesFor(transcript, Unknown, None);
      assert Extracted(transcript, c.0, now, dateParser) == Ok(Extraction(ents, None));
      if Search(PhoneAt, transcript, 0).None? && Search(UuidAt, transcript, 0).None? {
        forall f | f in ents
          ensures ents[f].None?
        {
        }
      } else {
        assert ents[Phone].Some? || ents[LeadId].Some?;
      }
    }
  }

  /** Without the fallback the LLM is never consulted: any two oracles give the same result. */
  lemma LlmOnlyOnFallback(transcript: string, now: DateTime, dateParser: string -> Option<string>, llm1: string -> LlmCall, llm2: string -> LlmCall)
    requires Valid(now) && !FallbackTaken(transcript)
    ensures Parsed(transcript, now, dateParser, llm1) == Parsed(transcript, now, dateParser, llm2)
  {
    GuardIff(transcript, now, dateParser);
  }

  /**
   * On the fallback the answer carries confidence 0.7 and no error; a failed
   * call gives UNKNOWN with no entities, and an answer's intent label and
   * entities are passed through, UNKNOWN and {} standing in for missing keys.
   */
  lemma FallbackResult(transcript: string, now: DateTime, dateParser: string -> Option<string>, llm: string -> LlmCall)
    requires Valid(now) && FallbackTaken(transcript)
    ensures var r := Parsed(transcript, now, dateParser, llm);
      r.Ok? && r.value.confidence == LlmConfidence && r.value.error.None?
      && (llm(transcript).CallFailed? ==> r.value.intent == Unknown && r.value.entities == map[])
      && (llm(transcript).Answered? ==>
            Label(r.value.intent) == llm(transcript).reply.intent.GetOr("UNKNOWN")
            && r.value.entities == llm(transcript).reply.entities.GetOr(map[]))
  {
    GuardIff(transcript, now, dateParser);
  }

  /**
   * Off the fallback the rules' answer stands: the classified intent and
   * confidence, the extracted entities and the validation error, which
   * only a known intent can carry.
   */
  lemma RulePathResult(transcript: string, now: DateTime, dateParser: string -> Option<string>, llm: string -> LlmCall)
    requires Valid(now) && !FallbackTaken(transcript)
    requires Extracted(transcript, Classification(transcript).0, now, dateParser).Ok?
    ensures var r := Parsed(transcript, now, dateParser, llm);
      var x := Extracted(transcript, Classification(transcript).0, now, dateParser).value;
      r == Ok(NluResult(Classification(transcript).0, Classification(transcript).1, x.entities, x.error))
      && (x.error.Some? ==> r.value.intent in KnownIntents && |x.error.value.missingFields| > 0)
  {
    GuardIff(transcript, now, dateParser);
  }

  /** A LEAD_CREATE transcript without a phone number is answered by the rules with a validation error naming the phone. */
  lemma CreateWithoutPhone(transcript: string, now: DateTime, dateParser: string -> Option<string>, llm: string -> LlmCall)
    requires Valid(now)
    requires Classification(transcript).0 == LeadCreate && Search(PhoneAt, transcript, 0).None?
    ensures var r := Parsed(transcript, now, dateParser, llm);
      r.Ok? && r.value.intent == LeadCreate && r.value.confidence == Classification(transcript).1
      && r.value.error.Some? && Phone in r.value.error.value.missingFields
  {
    var e := EntitiesFor(transcript, LeadCreate, None);
    assert Extracted(transcript, LeadCreate, now, dateParser).Ok?;
    assert Extracted(transcript, LeadCreate, now, dateParser).value.entities == e;
    assert e[Phone] == None by {
      EntitiesForSlots(transcript, LeadCreate, None);
    }
    ExtractedErrors(transcript, LeadCreate, now, dateParser);
    assert Phone in Required(LeadCreate) && Lookup(e, Phone).None?;
  }
}
