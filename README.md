# Delhi AQI monitor: decision rules, modelled in Dafny

The application is a single Streamlit script (`app.py`) that fetches live
air-quality readings for a Delhi bounding box from the WAQI service, shows
them on a map, and sends an SMS alert through the Fast2SMS gateway with
advice for the station nearest to central Delhi. This project models the
parts of that script that decide something, and proves what they promise:

- `Classifier` — `get_aqi_category`: the six fixed (label, glyph, advice)
  triples chosen by the inclusive upper bounds 50, 100, 150, 200, 300. AQI
  values are `real`. A recursive reference definition (the first bound that
  is at least the AQI) is proved equal to the if-chain. From it follow the
  exact band boundaries and monotonicity.
- `MapColour` — the marker-colour rule of the map layer (red above 200,
  orange above 150, green otherwise). It is proved to agree with the
  classifier's bands.
- `Text` — the string operations the phone check uses:
  - `str.replace("+91", "")` as one left-to-right pass that removes every
    non-overlapping occurrence;
  - `str.strip()`;
  - `str.isdigit()`.
- `Sms` — `send_sms_fast2sms`:
  - The API key is checked first.
  - The number is then normalised and must be exactly ten digits.
  - A request is issued only after both checks pass.
  - Success is read from the gateway's `return` flag.
  - The gateway's answer is a parameter (`GatewayReply`). The result records
    which request, if any, went out.
- `AqiFetch` — `fetch_live_aqi_data` without its HTTP calls:
  - the token check;
  - the `status == "ok"` check;
  - the failure on an empty payload;
  - dropping rows whose AQI is not numeric, in order;
  - the name-building loop with its `"Unknown Station"` fallback.

  The bounding-box reply and the per-station name lookup are parameters.
- `Alert` — the "Send SMS Alert" handler:
  - It refuses an empty location or phone.
  - It picks a station of minimal distance (a loop).
  - It classifies that station and builds the four-line message.
  - It hands the message to the SMS client.

  Distances and the printing of the AQI value are parameters.
- `Wrappers` — `Option` and `Result`.

Behaviour of the code worth noting:

- Every `"+91"` in the number is removed, not only a leading one.
- An AQI of 160 is "Unhealthy": it lies above 150 and at most 200
  (`Classifier.BoundaryExamples`).
- The nearest row comes from an unstable sort, so ties are not resolved in
  original order. Only minimality is promised.
- An empty bounding-box payload does not give an empty table. `pd.DataFrame([])`
  has no `aqi` column, so the code returns the error
  `"Error fetching AQI data: 'aqi'"`.
- When every AQI is non-numeric, the table is empty. Taking the first row of
  the sorted table then raises, and the alert handler has no path for this;
  the model gives it the outcome `NoStation`.

## Model

| member | source | states |
|---|---|---|
| Classifier.GetAqiCategory | app.py:128-140 | the result is one of the six fixed triples |
| Classifier.FirstBoundAtLeast | app.py:129-139 | reference definition: the index of the first bound that is at least the AQI; every earlier bound is below it |
| Classifier.ClassifierIsFirstBound | app.py:128-140 | the if-chain returns the triple of the first bound in 50, 100, 150, 200, 300 that is at least the AQI, else "Hazardous" |
| Classifier.BandBoundaries | app.py:129-140 | the six bands partition the reals: band i is returned exactly when the AQI is above bound i-1 and at most bound i (both directions) |
| Classifier.LowValuesAreGood | app.py:129-130 | every AQI at most 50, negatives included, is "Good" |
| Classifier.FirstBoundMonotone | app.py:129-139 | a larger AQI never has an earlier first bound |
| Classifier.ClassifierMonotone | app.py:129-140 | if a <= b, the band of a is no more severe than the band of b |
| Classifier.BoundaryExamples | app.py:129-140 | 50 is "Good", 50.0001 "Moderate", 300 "Very Unhealthy", 300.0001 "Hazardous"; 40, 160, 310 are "Good", "Unhealthy", "Hazardous" |
| MapColour.AqiColour | app.py:171-173 | the colour is one of red, orange, green |
| MapColour.ColourMatchesCategory | app.py:171-173 | red iff AQI > 200, orange iff 150 < AQI <= 200, green iff AQI <= 150; red iff "Very Unhealthy" or "Hazardous", orange iff "Unhealthy", green iff one of the three mildest bands |
| MapColour.ColourByBandIndex | app.py:171-173 | red covers band indices 4-5, orange index 3, green indices 0-2 |
| Text.RemoveAll | app.py:93 | removing a pattern never lengthens the text and only deletes characters of it (multiset inclusion) |
| Text.RemoveAllAbsent | app.py:93 | text without the pattern's first character is left unchanged |
| Text.RemoveAllKeepsPrefix | app.py:93 | a prefix without the pattern's first character is kept and removal continues after it |
| Text.RemoveAllKeeps | app.py:93 | a character is kept by the removal unless it starts an occurrence of the pattern or equals one of the pattern's later characters |
| Text.RemoveAllDropsLeading | app.py:93 | an occurrence at the front is removed |
| Text.TrimStart | app.py:93 | the result is a suffix of the input, everything dropped is whitespace, and it does not start with whitespace |
| Text.TrimEnd | app.py:93 | the result is a prefix of the input, everything dropped is whitespace, and it does not end with whitespace |
| Text.Strip | app.py:93 | `strip()` never lengthens the text and its result neither starts nor ends with whitespace |
| Text.StripIsCore | app.py:93 | `strip()` returns a slice of the input with only whitespace outside it and no whitespace at either end |
| Text.StripKeepsNonSpace | app.py:93 | every non-whitespace character of the input is in the stripped result |
| Text.TrimStartPadded | app.py:93 | leading whitespace before a core that starts with a non-space is removed |
| Text.TrimEndPadded | app.py:93 | trailing whitespace after a core that ends with a non-space is removed |
| Text.StripPadded | app.py:93 | whitespace on both sides of such a core is removed and the core is returned |
| Text.IsDigitString | app.py:95 | `isdigit()`: a digit string is non-empty and holds neither whitespace nor a '+' |
| Sms.IsIndianMobile | app.py:95 | an accepted number (ten digits) is already in normal form: normalising it changes nothing |
| Sms.NormalisePhone | app.py:93 | normalising never lengthens the number |
| Sms.SendSms | app.py:85-121 | a request is issued iff the key is non-empty and the normalised number is ten digits; it carries the message, "english", "v3", the normalised number and the key; an empty key gives "FAST2SMS API key missing", a bad number the 10-digit error, both without a request; success iff a request was issued and the reply's `return` is true; otherwise the reply's text or "Error sending SMS: " and the exception |
| Sms.MissingKeyIgnoresInputs | app.py:89-90 | with an empty key the answer is the same for every number, message and reply, and no request is made |
| Sms.NoRequestIgnoresReply | app.py:89-96 | when no request is issued the gateway's reply plays no part in the result |
| Sms.NormaliseAfterCountryCode | app.py:93 | "+91" followed by text without '+' normalises to the stripped text |
| Sms.NormaliseDigits | app.py:93-95 | ten digits with one "+91" anywhere among them and whitespace around them normalise to the ten digits, which are accepted |
| Sms.DigitsNormalise | app.py:93 | a digit string with or without a leading "+91" normalises to itself |
| Sms.DigitStringAccepted | app.py:93-96 | a digit string with or without a leading "+91" is accepted iff it has ten digits |
| Sms.StrayCharacterSurvives | app.py:93 | a non-whitespace character that is not a '9' or '1' and does not start a "+91" is still in the normalised number |
| Sms.StrayCharacterRejected | app.py:93-96 | a character that is neither whitespace nor a digit, anywhere in the number, gets it refused, with or without a leading "+91"; the only exception is the '+' of a "+91", which is removed |
| Sms.AcceptsCountryCodeExample | app.py:93-104 | "+919876543210" normalises to "9876543210" and a request is issued |
| Sms.RejectsShortNumberExample | app.py:95-96 | "98765432" is refused before any request |
| Sms.RejectsLettersExample | app.py:93-96 | "+91abcdefghij" is refused before any request |
| Sms.RejectsStrayPlusExample | app.py:93-96 | "98765+43210" is refused before any request: its '+' does not start a "+91" and is kept |
| AqiFetch.KeepNumeric | app.py:38-39 | the kept rows are exactly the input rows with a numeric AQI |
| AqiFetch.KeepNumericAppend | app.py:38-39 | filtering distributes over concatenation, so kept rows stay in their original order |
| AqiFetch.KeepNumericSingle | app.py:38-39 | a single row is kept iff its AQI is numeric |
| AqiFetch.NameOrUnknown | app.py:44-49 | a successful lookup gives the looked-up name, a failed one "Unknown Station" |
| AqiFetch.AttachNames | app.py:52 | the table has one row per kept row, in order, each with that row's uid, position and numeric AQI and the name at the same position |
| AqiFetch.FetchLiveAqiData | app.py:21-56 | a missing token gives "Missing WAQI API token"; a failed request gives "Error fetching AQI data: " and the reason; a status other than "ok" gives "WAQI API Error: " and the reply; an empty payload gives the missing-column error; otherwise the table has one row per numeric input row, in order, with its AQI and the looked-up name or "Unknown Station" |
| AqiFetch.FetchDropsNonNumeric | app.py:38-39 | a row with a non-numeric AQI is not in the table, and every table row has the uid and AQI of some input row |
| Alert.Nearest | app.py:209-213 | the chosen row's distance is at most every row's distance |
| Alert.AlertMessage | app.py:217-222 | the four-line alert text begins with "AQI Alert - " and the location |
| Alert.JoinLinesContains | app.py:217-222 | the joined message starts with its first line and contains the other three |
| Alert.AlertMessageContents | app.py:215-222 | the message begins "AQI Alert - " and the location, and contains the station's category label, its advice and the station name |
| Alert.SendAlert | app.py:204-224 | an empty location or phone means no send; an empty table means no station; otherwise the chosen row is nearest, the message is built from it and handed to the SMS client with the phone as entered |
| Alert.SentAlertCarriesMessage | app.py:215-224 | when the alert about a station goes out, the request carries a message that begins with the location and holds that station's advice, and it is addressed to the normalised number |

## Left out

- Page setup, spinner, success/error widgets, pydeck map, plotly histogram
  and data table are presentation over libraries. They are not part of this
  model.
- The HTTP requests, the JSON decoding and the 10-second timeout are not
  modelled. Replies are parameters (`WaqiReply`, `GatewayReply`, the name
  lookup). Exception texts and `str(j)` appear only as opaque strings after
  their fixed prefixes.
- `fetch_weather` is I/O with a string fallback and no decision logic.
- `calculate_distance` (haversine, floating-point trigonometry) is not
  modelled. Distances are a parameter `(lat, lon) -> real`.
- Python's float formatting of the AQI in the message is a parameter
  `real -> string`.
- `pd.to_numeric` coercion is abstracted as `Option<real>` per row.
- Environment variables are not read. The SMS key and the WAQI token are
  parameters.
- AqiFetch.FetchLiveAqiData: the name lookup is a function of the station
  uid, so two rows with the same uid get the same name. The source makes a
  separate request for each row, and those requests could answer differently.
- Alert.Nearest: promises minimal distance only, not which of several equally
  near rows is picked, because `sort_values` uses an unstable sort.
- Text.Strip: only the ASCII characters that Python treats as whitespace are
  removed. Python also strips some non-ASCII whitespace.
- Text.IsDigitString: only ASCII digits count. Python's `isdigit` also
  accepts other Unicode digits.
- The marker colour is assigned to the whole table by `apply`. The model
  states the rule for one AQI value.
