# CRM voice bot: rule-based NLU, request dispatcher and mock CRM store

This project models the decision logic of a voice-style CRM bot. It has three parts.

- **The NLU** (`bot/nlu.py`) turns a free-text transcript into an intent and a set of entities:
  - `classify_intent` scores three intents by keyword substring counts.
  - `parse_casual_datetime` resolves "tomorrow [H[:MM]][am|pm]".
  - `extract_entities` fills eight slots with per-intent regular expressions and lists the required fields left empty, in a fixed order.
  - `parse_transcript` hands the transcript to an LLM only when the rules found nothing.
- **The dispatcher** `handle_bot` (`bot/app.py`) handles one request, in this order:
  - It rejects a transcript longer than 1000 characters.
  - It stops at a validation error.
  - It makes the one CRM call that belongs to the intent.
  - It turns a backend error or an exception into `CRM_ERROR`.
  - It appends one analytics record.
- **The mock CRM** (`mock_crm.py`) keeps leads and visits in two in-memory tables.

The modules are:

- `Common`: `Option`, and `Try`, which stands for a value or an escaped Python exception.
- `Text`: character classes, ASCII lower-casing, substring search and `str.strip`.
- `Regex`: `re.search` as a leftmost scan (`Search`) over one matcher per pattern of `bot/nlu.py`.
- `Calendar`: the part of `datetime` that is used (`timedelta(days=n)` and `isoformat`). It is checked against a day-number reference and a parser for the ISO text.
- `Nlu`, `App`, `MockCrm`: the three source files.

Where the source updates state step by step, the model is a method proved equal to a specification function:
- `ClassifyIntent` equals `Classification`.
- `ExtractEntities` equals `Extracted`.
- `ParseTranscript` equals `Parsed`.
- `BotService.HandleBot` equals `Handle`.
- `CrmStore` is a class over `leads` and `visits` maps.

The lemmas state what these functions mean.

Confidences are in tenths: 0.3, 0.7, 0.9 and 1.0 become 3, 7, 9 and 10.

The following are parameters of the model:
- the wall clock: `now`;
- `dateparser.parse`: `dateParser`;
- the OpenAI call together with `json.loads`: `llm`;
- the CRM client: `crm`;
- `uuid4`: `newId`.

## Model

| member | source | states |
|---|---|---|
| Nlu.IntentOfLabel | bot/nlu.py:243-244 | The intent read from an LLM label keeps the label unchanged; it is one of the three known intents or UNKNOWN exactly when the label is one of their names |
| Nlu.MatchCount | bot/nlu.py:50 | The number of keywords that occur is at most the number of keywords, and it is zero iff none of them occurs in the text |
| Nlu.Candidate | bot/nlu.py:50-52 | An intent's confidence is 0 when none of its keywords matches, and otherwise one of 0.7, 0.9 or 1.0 |
| Nlu.Classification | bot/nlu.py:45-57 | The confidence is always 0.3, 0.7, 0.9 or 1.0; the intent is UNKNOWN iff the confidence is 0.3; any other intent is one of the three keys of INTENT_KEYWORDS |
| Text.Lower | bot/nlu.py:45 | Lower-casing keeps the length, maps each ASCII capital to its small letter and leaves every other character as it is |
| Nlu.ClassifyIntent | bot/nlu.py:37-57 | The loop over INTENT_KEYWORDS, with its strict `>` update of the best intent and confidence, returns exactly `Classification` |
| Nlu.ClassifiedUnknownIff | bot/nlu.py:45-57 | The result is UNKNOWN iff no keyword of any intent is a substring of the lower-cased transcript |
| Nlu.ClassifiedBest | bot/nlu.py:49-55 | A chosen intent has at least one match and confidence min(1.0, 0.5 + 0.2·m); no intent has more matches, and every earlier intent has strictly fewer, so ties go to the earlier intent |
| Nlu.ChooseBest | bot/nlu.py:49-55 | The running-maximum choice over three match counts picks a maximal count, and the earliest one among equals |
| Nlu.ScoreOrder | bot/nlu.py:52-53 | Comparing confidences agrees with comparing match counts, and every nonzero count beats the default 0.3 |
| Nlu.CasualNoneIff | bot/nlu.py:69-87 | The casual resolver returns None iff "tomorrow" is not in the lower-cased text |
| Nlu.CasualDateTime | bot/nlu.py:61-87 | A resolved time is a valid timestamp one or two days after `now` |
| Nlu.DayAfterTomorrowUnreachable | bot/nlu.py:72-85 | Any text containing "day after tomorrow" contains "tomorrow", so the second branch is never taken |
| Nlu.FirstClockIff | bot/nlu.py:74-75 | The clock pattern matches somewhere iff the text contains a digit |
| Nlu.CasualTomorrow | bot/nlu.py:72-81 | A "tomorrow" text gives now + 1 day. It raises exactly when the date overflows, or when the 24-hour reading (+12 only for "pm" before 12) exceeds 23 or the minutes exceed 59. With no clock match the time of `now` is kept; otherwise the time is that hour, the minutes or 0, and zero seconds and microseconds |
| Nlu.CasualExample | bot/nlu.py:72-81 | "tomorrow 5pm" at 2025-01-01T00:00 resolves to 2025-01-02T17:00:00 |
| Nlu.IsoExample | bot/nlu.py:81 | 2025-01-02 17:00 is formatted as "2025-01-02T17:00:00" |
| Nlu.FirstListedMeans | bot/nlu.py:155-158 | A found option is the first one in list order that occurs case-insensitively in the transcript; nothing is found iff no option occurs |
| Nlu.FindFirstListed | bot/nlu.py:174-179 | The for/break loop over an option list returns exactly that first occurring option |
| Nlu.MissingFrom | bot/nlu.py:110-185 | The missing-field list holds exactly the listed fields whose entity is None, in check order |
| Nlu.Extracted | bot/nlu.py:91-186 | Extraction raises only for VISIT_SCHEDULE, and a validation error never has an empty missing-field list |
| Nlu.Truthy | bot/nlu.py:140-143 | A date-parser result is kept iff it is present and non-empty, and then unchanged |
| Nlu.ExtractVisitFields | bot/nlu.py:127-151 | The VISIT_SCHEDULE steps: the at-clause phrase, stripped, goes through the casual resolver and then the date parser, and the notes group is stripped |
| Nlu.ExtractUpdateFields | bot/nlu.py:154-164 | The LEAD_UPDATE steps: the status is the first listed option that occurs, and the notes group is stripped |
| Nlu.ExtractCreateFields | bot/nlu.py:167-183 | The LEAD_CREATE steps: the leftmost name match, the first city that occurs, and the source word |
| Nlu.ExtractEntities | bot/nlu.py:91-186 | The in-place filling of the entity dictionary and of the error list returns exactly `Extracted` |
| Nlu.ExtractedOfSlots | bot/nlu.py:100-186 | The extraction holds the eight slots the matchers produce, and a validation error iff the step-by-step missing list is non-empty |
| Nlu.MissingStepsRequired | bot/nlu.py:112-179 | The appends made at the phone, lead_id, visit_time, status, name and city checks give the required fields whose entity is None, in that order |
| Nlu.ExtractedErrors | bot/nlu.py:110-185 | There is an error iff some required field of the intent is None. The error's list names exactly those fields, as a subsequence of [phone, name, city], [lead_id, visit_time] or [lead_id, status] |
| Nlu.ExtractedGating | bot/nlu.py:100-183 | All eight keys are present. Name, city and source are None unless the intent is LEAD_CREATE, visit_time unless VISIT_SCHEDULE, status unless LEAD_UPDATE, and notes unless one of the latter two. An intent other than the three has no error |
| Nlu.EntitiesForGating | bot/nlu.py:100-183 | The same gating on the dictionary the matchers fill |
| Nlu.PhoneShape | bot/nlu.py:112-117 | An extracted phone is ten digits with an optional "+91" and an optional dash or space, and it occurs in the transcript; no phone means no run of ten digits anywhere |
| Nlu.LeadIdShape | bot/nlu.py:119-124 | An extracted lead_id has the 8-4-4-4-12 hexadecimal shape and occurs in the transcript; none means that no substring has that shape |
| Nlu.ListedShapes | bot/nlu.py:155-177 | The name is the leftmost "Xx.. Xx.." match, whether or not "name " precedes it; the city and status are the first listed options that occur |
| Regex.NamePrefixIrrelevant | bot/nlu.py:168 | The optional `name\s` prefix never changes group 1 of the leftmost match |
| Nlu.VisitTimeShape | bot/nlu.py:140-145 | A visit time that is set is non-empty |
| Nlu.ExtractedRaises | bot/nlu.py:72-131 | Extraction can raise only for VISIT_SCHEDULE, and only when the at-clause phrase contains "tomorrow" |
| Nlu.DateParserOnlyFallback | bot/nlu.py:131-141 | The date parser affects the result only when the intent is VISIT_SCHEDULE and its at-clause phrase has no "tomorrow" |
| Nlu.DateParserUsed | bot/nlu.py:127-147 | For VISIT_SCHEDULE with an at-clause phrase that has no "tomorrow", the visit time is exactly the parser's non-empty result, and an empty result puts visit_time in the validation error |
| Nlu.NoPhoneClassified | bot/tests/test_bot_end_to_end.py:202 | "Add a new lead with no phone number" matches "add" and "new lead": LEAD_CREATE at 0.9 |
| Nlu.NoDigitNoPhone | bot/nlu.py:112-117 | A text without digits holds no phone number |
| Nlu.NoPhoneParsed | bot/tests/test_bot_end_to_end.py:198-208 | The test transcript parses to LEAD_CREATE at 0.9 with a validation error that lists the phone |
| Nlu.CreateWithoutPhone | bot/nlu.py:112-185 | Any transcript classified LEAD_CREATE with no phone match parses to a validation error that lists the phone |
| Nlu.ExtractWithLlm | bot/nlu.py:209-219 | A failed call or undecodable reply becomes intent UNKNOWN with an empty entity map; a decoded reply is returned as it is |
| Nlu.ParseTranscript | bot/nlu.py:223-255 | Classifying, extracting and applying the guard returns exactly `Parsed` |
| Nlu.Parsed | bot/nlu.py:223-255 | Parsing raises only for a transcript classified VISIT_SCHEDULE, and a result with an error keeps the classifier's intent and confidence |
| Nlu.GuardIff | bot/nlu.py:240 | The guard "UNKNOWN and every entity None" holds iff no keyword, no phone and no UUID is found, and the rule path can raise only for VISIT_SCHEDULE |
| Nlu.LlmOnlyOnFallback | bot/nlu.py:240-255 | When the guard fails, the LLM has no influence on the result |
| Nlu.FallbackResult | bot/nlu.py:240-248 | On the fallback the confidence is 0.7 and the error is None. The intent and entities are the reply's, defaulting to UNKNOWN and {}; a failed call gives UNKNOWN with no entities |
| Nlu.RulePathResult | bot/nlu.py:250-255 | Off the fallback the classifier and extractor outputs are returned unchanged, and an error comes only with a known intent and a non-empty list |
| Regex.Search | bot/nlu.py:113 | `re.search` finds the leftmost position at which the pattern matches, and finds nothing only when it matches nowhere |
| Regex.SearchFinds | bot/nlu.py:113 | A match with no match before it is the one the search returns |
| Regex.PhoneAt | bot/nlu.py:29 | A phone match occurs at the position and has one of the three shapes of PHONE_REGEX; "+91", a separator and ten digits match as those 14 characters, "+91" and ten digits as those 13, and ten digits alone as those 10 |
| Regex.ClockAt | bot/nlu.py:74 | The clock pattern matches at a position iff a digit is there; the hour is the value of the one or two digits there, the minute is present iff a ':' and two digits follow and is then their value, and pm is set iff "pm" follows after optional whitespace; hour and minute are below 100 |
| Regex.HourDigitsUnique | bot/nlu.py:74 | The hour's digit run at a position is determined by the text, so the hour ClockAt reports is unique |
| Regex.UuidAt | bot/nlu.py:120 | A UUID match occurs at the position and has the 8-4-4-4-12 hexadecimal shape, and any such text there is the match |
| Regex.AtClauseAt | bot/nlu.py:128 | A match starts with "at " in any case; its group is non-empty, holds no newline and no "." after its first character, and stops at a ".", the end or a final newline; "at " followed by a group that can stop is always matched |
| Regex.NotesAt | bot/nlu.py:149 | The notes pattern matches iff "notes" occurs there in any case; the group starts right after the keyword, one optional ':' or '-' and all the whitespace that follows, holds no newline and runs to the end of its line |
| Regex.NotesStartUnique | bot/nlu.py:149 | The start of the notes group is determined by the text, so the group is unique |
| Regex.BareNameAt | bot/nlu.py:168 | A match is two capitalised ASCII words joined by one whitespace character, and the second word runs as far as lower-case letters go |
| Regex.BareNameFound | bot/nlu.py:168 | Whenever a two-word capitalised name occurs at a position, the bare-name pattern matches there, and it matches exactly that name when no lower-case letter follows it |
| Regex.NameAt | bot/nlu.py:168 | A match is a two-word name at the position or after "name" and one whitespace character, and a bare name there always matches |
| Regex.SourceAt | bot/nlu.py:181 | A match follows "source" in any case and whitespace; the group is a non-empty run of word characters that runs as far as they go; "source", whitespace and a word character are always matched |
| Regex.LazyGroupEnd | bot/nlu.py:128 | The lazy `(.+?)` covers at least one character and no newline, and ends at the first position after its first character that is a ".", the end of the text or a final newline; it fails iff no such position is reachable without crossing a newline |
| Text.Strip | bot/nlu.py:130 | `str.strip` returns a slice of the text with no whitespace at either end, and everything cut off on either side is whitespace |
| Calendar.NextDay | bot/nlu.py:73 | `now + timedelta(days=1)` is a valid timestamp one day later with the same time of day; it fails only on 9999-12-31 |
| Calendar.AddDays | bot/nlu.py:73 | Adding n days gives a valid timestamp n days later with the same time of day, and overflows exactly past 9999-12-31 |
| Calendar.IsoRoundTrip | bot/nlu.py:81 | Reading back the `isoformat()` text gives the same timestamp |
| Calendar.IsoFormat | bot/nlu.py:81 | `isoformat()` gives 19 characters with the date and time separators in place, or 26 exactly when the microseconds are non-zero |
| App.Arg | bot/app.py:97-99 | `entities.get(key, "")`: an absent key reads as the empty string |
| App.BotService.HandleBot | bot/app.py:44-149 | The endpoint returns `Handle`'s outcome. It appends at most one analytics record and makes at most one CRM call, exactly those `Handle` describes |
| App.Handle | bot/app.py:44-149 | The outcome is a rejection iff the transcript exceeds 1000 characters, a log record exists iff a response is returned, and a CRM call only with a record |
| App.Respond | bot/app.py:77-149 | A response with one log record echoing the NLU's intent and entities; a CRM call iff the NLU has no error and the intent is one of the three; success only after a call |
| App.BotService.LogAnalytics | bot/app.py:24-39 | Logging appends one record of intent, entities and success, and nothing else changes |
| App.BotService.CallCrm | bot/app.py:94-136 | A CRM call records the request and yields the returned dictionary, or a CRM_ERROR built from the exception |
| App.TooLongRejected | bot/app.py:57-61 | The outcome is a 400 rejection iff the transcript exceeds 1000 characters; there is then no CRM call and no log record |
| App.CrashedOnlyFromDates | bot/app.py:66 | An exception escapes the endpoint only from a VISIT_SCHEDULE date resolution, and before any CRM call or log record |
| App.ValidationShortCircuit | bot/app.py:77-91 | An NLU error means no CRM call, `crm_call` and `result` None, one failed log record, and the error VALIDATION_ERROR with the fixed details and no missing fields |
| App.ResponseEchoesNlu | bot/app.py:66-148 | Every response and log record carries the NLU's intent, confidence and entities |
| App.OneCallPerKnownIntent | bot/app.py:94-127 | There is a CRM call iff the transcript is accepted, the NLU has no error and the intent is one of the three. It is that intent's operation with the entity arguments |
| App.CallOutcome | bot/app.py:102-148 | Success iff the call returned a dictionary without "error". The result is then the intent's fixed message and there is no error; otherwise there is no result and an error. An exception becomes CRM_ERROR with its message |
| App.UnknownIntentAnswered | bot/app.py:126-148 | Any other intent: no CRM call, `crm_call` None, the "Unknown intent" message, no error, and a failed log record |
| App.RulePathError | bot/app.py:77 | An NLU error can only come with one of the three known intents |
| App.AnalyticsFaithful | bot/app.py:77-139 | A log record is written iff a response is returned. It records success iff a CRM call returned without "error", and a success has no error in the response |
| App.RulePathRequestComplete | bot/app.py:94-124 | Off the LLM fallback, a CRM call is made only with every field its intent requires present |
| App.NoPhoneValidation | bot/tests/test_bot_end_to_end.py:198-208 | "Add a new lead with no phone number" is answered as LEAD_CREATE with VALIDATION_ERROR and no CRM call |
| MockCrm.NluStatusesAccepted | mock_crm.py:35-38 | The status pattern accepts exactly the five options of STATUS_OPTIONS, so every status the NLU extracts is accepted |
| MockCrm.CrmStore.constructor | mock_crm.py:42-43 | Both tables start empty |
| MockCrm.CrmStore.CreateLead | mock_crm.py:47-53 | One lead is stored under the fresh id: the payload, that id and status NEW. The reply is {id, NEW}, and visits are unchanged |
| MockCrm.CrmStore.CreateVisit | mock_crm.py:56-65 | An unknown lead gives 404 and changes nothing. Otherwise one visit is stored under the fresh id with status SCHEDULED, and leads are unchanged |
| MockCrm.CrmStore.UpdateLeadStatus | mock_crm.py:68-79 | A status outside the pattern gives 422, and an unknown lead 404; neither changes anything. Otherwise only that lead's status changes, its notes are replaced only by non-empty notes, and no key is added or removed |

## Left out

- Unicode: `str.lower`, `\d`, `\w` and `re.IGNORECASE` are modelled on ASCII only. Non-ASCII letters and digits are not recognised as such.
- `\s` and `str.strip` use Python's whitespace set for the characters that matter here. Other Unicode spaces are not modelled.
- `dateparser.parse` is a function parameter returning an optional ISO string. Its parsing and the timezone-aware `isoformat()` it produces are not modelled.
- `datetime.now()` is the parameter `now`, a naive timestamp. Time zones are not modelled.
- `extract_with_llm`: the OpenAI request and `json.loads` are one parameter. It returns a decoded object with optional "intent" and "entities" keys, or a failure.
  - A reply whose "intent" or entity values are not strings, or whose "entities" is JSON null, is not modelled.
  - In `handle_bot`, `or {}` turns null entities into {}; the model has no null entities to turn.
- bot/crm_client.py: the HTTP session, retries and timeouts. `crm` is a parameter that returns a dictionary (a result record or an "error" entry) or raises with a message.
- The analytics file write and its `utcnow()` timestamp. The log is the sequence field `analytics`.
- FastAPI routing, request and response validation, and the HTTP status of a response. A rejection and an escaped exception are `Outcome` variants.
  - The pydantic parse of `visit_time` in `VisitCreate` is not modelled. `MockCrm` stores the visit time as a naive `Calendar.DateTime`, so a timezone offset in the string is lost, and a string pydantic would reject is not modelled.
  - The status pattern's `$` is read as the end of the text.
- `uuid4` is the parameter `newId`. Collisions with an existing id are not excluded: the source would overwrite that entry, and so does the model.
- Floating-point confidence: tenths are exact. `0.5 + 0.2 * m` is read as 0.7, 0.9 and 1.1 (capped to 1.0).
- Logging calls (`logger.info`, `logger.warning`, `logger.error`) have no effect on results.
- `result` is also set for an unknown intent (bot/app.py:126-127); the model follows the code.
- `handle_bot` reads `error.get("type")` and `error.get("details")` with defaults. The NLU error never has "details", so the response always carries the fixed details text and never `missing_fields`. `App.ValidationShortCircuit` states this.
- App.CrashedOnlyFromDates: holds only for LLM replies that decode to a JSON object. In `Nlu.ExtractWithLlm` a reply that is valid JSON but not an object makes `llm_result.get` (bot/nlu.py:244) raise AttributeError, and the request ends in a 500; the reply type cannot express that case.
- Nlu.ExtractWithLlm: the reply's entity map is keyed by the eight fields, so extra keys the LLM might return, which the source echoes in the response and the analytics record, cannot appear in the model.
