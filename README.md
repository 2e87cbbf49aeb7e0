# Flight-rule weather classifier of the Antioquia route planner

This project models the weather module of a small-aircraft route planner for
airports in Antioquia (core/clima.py). The module turns an OpenWeather reply,
or a simulated record when no API key is configured, into a condition record
holding temperature (°C), wind (km/h), visibility (km) and a sky text. It
classifies the record as VFR, MVFR, IFR or LIFR with a first-match visibility
ladder, in which the sky keywords "nublado" and "torment" only matter on the
MVFR rung. It calls a record safe when the category is VFR or MVFR, and it
reports which data source is in use.

Modules:

- `Wrappers` (wrappers.dfy): `Option`, with `GetOr` standing for `dict.get(key, default)`.
- `Text` (text.dfy): Python's `str.lower()`, `str.capitalize()` and the substring test `sub in s`, with their properties.
- `Clima` (clima.dfy): the condition record, the categories with their severity rank, the classifier, the safety verdict, the payload conversion, the choice between live and simulated data, and the data-source label.

The classifier's own contract characterises each category by the inputs that
yield it. The lemmas state the ladder's consequences: sky text is irrelevant
below 5 km, visibility is monotone, letter case is irrelevant, and simulated
records are never LIFR. Further lemmas show that a reply without visibility
is always safe. They also show that the two API-key tests disagree on an
empty key.

Facts about the code that shape the model:

- The record always has a visibility, because the code reads the key directly.
- Safety is only "category is VFR or MVFR", which is the same as visibility ≥ 5 km.
- A reply without visibility is read as 10000 m, that is 10 km.
- There is one ladder, with thresholds in kilometres.

## Model

| member | source | states |
|---|---|---|
| Clima.DetermineFlightRules | core/clima.py:67-88 | LIFR iff visibility < 1; IFR iff 1 ≤ visibility < 5; MVFR iff visibility ≥ 5 and (visibility < 10 or the lower-cased sky text contains "nublado" or "torment"); VFR iff visibility ≥ 10 and neither keyword occurs; the message is the category's fixed phrase |
| Clima.CategoryOf | core/clima.py:111 | the category part of the classifier's result, whose message part is always that category's phrase |
| Clima.IsSafe | core/clima.py:106-112 | safe iff visibility ≥ 5 km, equivalently iff the category's severity is VFR or MVFR |
| Clima.Category.Rank | core/clima.py:75-88 | severity order VFR < MVFR < IFR < LIFR: ranks 0, 1, 2 and 3, each for exactly that category |
| Clima.Message | core/clima.py:76-88 | each of the four fixed phrases belongs to exactly one category: LIFR, IFR, MVFR or VFR |
| Clima.MarginalSky | core/clima.py:84 | the sky text is marginal iff its lower-cased form has an occurrence of "nublado" or of "torment"; a marginal text is at least 7 characters long |
| Clima.LowVisibilityIgnoresSky | core/clima.py:76-81 | below 5 km, replacing the sky text changes neither category nor message; below 1 km it is LIFR, otherwise IFR |
| Clima.SkyOnlyDecidesVfrOrMvfr | core/clima.py:80-88 | changing the sky text either keeps the category or moves it between VFR and MVFR only; keywords never push below MVFR |
| Clima.MonotoneInVisibility | core/clima.py:76-88 | with the sky text fixed, lowering visibility never gives a lower severity rank |
| Clima.CaseInsensitive | core/clima.py:73-84 | two sky texts that differ only in letter case give the same category and message |
| Clima.CloudyExamples | core/clima.py:73-85 | "Nublado" and "NUBLADO" both give MVFR at any visibility ≥ 5 km |
| Clima.InSimulatorRange | core/clima.py:53-61 | the simulator's output set: temperature in [15, 35], wind in [0, 25], visibility in [1, 20], sky one of the four texts; each such sky text is its own capitalization, the form live descriptions take |
| Clima.SimulatedSkyCapitalized | core/clima.py:59 | each of the four simulated sky texts equals its own capitalization |
| Clima.CloudySkyMarginal | core/clima.py:84 | "Nublado" (and "NUBLADO") lower-cased contains "nublado" |
| Clima.StormySkyMarginal | core/clima.py:84 | "Tormentoso" lower-cased contains "torment" |
| Clima.NoKeywordInitialNotMarginal | core/clima.py:84 | a sky text without the letters n/N and t/T never matches either keyword |
| Clima.ClearSkiesNotMarginal | core/clima.py:59 | the simulator's "Despejado" and "Parcial" match no keyword |
| Clima.SimulatedCategories | core/clima.py:53-61 | a record within the simulator's ranges is never LIFR; with "Nublado" or "Tormentoso" it is never VFR; with "Despejado" or "Parcial" it is VFR iff visibility ≥ 10 |
| Clima.ConvertPayload | core/clima.py:32-41 | conversion fails iff temperature, wind speed or the weather list is missing or empty; otherwise temperature is kept, wind km/h ÷ 3.6 is the m/s speed, visibility km × 1000 is the metres given or 10000 (values before the rounding of lines 39-40), an absent visibility is exactly 10 km, and the sky text is the capitalized first description, which equals it up to letter case |
| Clima.MissingVisibilityIsSafe | core/clima.py:34 | a converted reply without visibility classifies as VFR or MVFR and is safe |
| Clima.ConvertedCategoryFollowsDescription | core/clima.py:35 | with ASCII case mapping, capitalizing the description never changes whether the sky text matches a keyword |
| Clima.ObtainConditions | core/clima.py:13-47 | with no key the simulated record is returned; with a key and a reply that converts, the converted record; any other result is the simulated record |
| Clima.AttemptsLiveCall | core/clima.py:18 | the `is None` test lets through exactly the truthy keys and the empty key |
| Clima.KeyIsTruthy | core/clima.py:98 | a key is truthy iff it is present and has non-zero length |
| Clima.DataSource | core/clima.py:94-100 | the OpenWeather label iff the key is present and non-empty, the offline label otherwise |
| Clima.LiveLabelImpliesLiveCall | core/clima.py:96-100 | whenever the label names OpenWeather, the key passes the `is None` test and a live call is made |
| Clima.EmptyKeyLabelMismatch | core/clima.py:18-41 | with an empty key the label says simulated, yet the live call is made and a well-formed reply is used |
| Text.LowerChar | core/clima.py:73 | the result is never an ASCII capital; a capital maps to the small letter 32 code points above it; any other character is kept |
| Text.UpperChar | core/clima.py:35 | the result is never an ASCII small letter; a small letter maps to the capital that lower-cases back to it; any other character is kept |
| Text.Lower | core/clima.py:73 | same length, and each character is the lower-cased input character |
| Text.Capitalize | core/clima.py:35 | same length, first character upper-cased, the rest lower-cased |
| Text.Contains | core/clima.py:84 | a contained pattern is no longer than the text, and the empty pattern is contained in every text |
| Text.ContainsIffOccurs | core/clima.py:84 | the left-to-right substring scan holds iff the pattern occurs at some index |
| Text.MissingFirstCharNotContained | core/clima.py:84 | text lacking the pattern's first character does not contain the pattern |
| Text.ContainsPrefix | core/clima.py:84 | text that starts with the pattern contains it |
| Text.SameUpToCaseIffSameLower | core/clima.py:73 | two texts are equal up to letter case iff their lower-cased forms are equal |
| Text.LowerOfCapitalize | core/clima.py:35 | lower-casing a capitalized text equals lower-casing the original |
| Text.CapitalizeFixed | core/clima.py:35 | a text with no small letter first and no capital after it is unchanged by capitalizing |
| Text.CapitalizeSameUpToCase | core/clima.py:35 | capitalizing changes only letter case |
| Wrappers.Option.GetOr | core/clima.py:34 | the present value, or the default when absent |

## Left out

- The HTTP request, `.env` loading and the console messages (core/clima.py:4-8, 19, 22-29, 45-46) are not modelled. The reply is a parameter of `ObtainConditions`, where `None` stands for a request or JSON failure. The broad `except` (core/clima.py:44-47) is modelled by its outcome: a failed request, a missing key or an empty weather list gives the simulated record. The exception types themselves are not modelled.
- A payload field of the wrong type (a TypeError in the arithmetic) is not modelled. Only missing keys and an empty weather list lead to the fallback.
- A first weather entry without a "description" key cannot be expressed, because the weather list is a list of description texts. The code raises a KeyError there and falls back to simulated data (core/clima.py:35, 44-47).
- The random generator of `obtener_condiciones_simuladas` (core/clima.py:53-61) is not modelled. Its output is a parameter, and its ranges are the predicate `InSimulatorRange`.
- The `round(..., 1)` calls (core/clima.py:39-40, 56-58) are not modelled: the model uses exact reals. This can change the category and the safety verdict of live data. A reply of 4960 m gives 4.96 km in the model, which is IFR and unsafe. The code rounds it to 5.0 km, which is MVFR and safe. Likewise, visibilities just below 1 km (0.96 rounds to 1.0) are LIFR in the model but IFR in the code. Visibilities just below 10 km (9.96 rounds to 10.0) with a non-marginal sky are MVFR in the model but VFR in the code. Simulated records keep their ranges after rounding. The float products `* 3.6` and `/ 1000.0` are exact in the model as well. In Python, `1.1 * 3.6` is `3.9600000000000004`, so `ConvertPayload`'s `wind / 3.6 == speed` holds only on exact reals. Before rounding, these errors are far smaller than any gap between a value and a threshold.
- The report text of `analizar_condiciones_meteorologicas` (core/clima.py:115-130) is not modelled, because it is only string formatting of floats.
- Text.LowerChar: only A–Z is mapped, and every other character is kept, where Python lower-cases it (for example 'É' to 'é', or the Kelvin sign to 'k').
- Text.UpperChar: only a–z is mapped, and every other character is kept, where the title-casing in Python's `capitalize()` maps it (for example 'é' to 'É', or 'ﬅ' to "St").
- Text.Lower: only ASCII letters are case-mapped, while Python maps all of Unicode. The keywords "nublado" and "torment" contain no letter that a non-ASCII character lower-cases to, so the classification is the same.
- Text.Capitalize: the first character is upper-cased in ASCII only, while Python title-cases it in Unicode. Title-casing can produce ASCII letters: the ligature 'ﬅ' (U+FB05) becomes "St". So "ﬅorment" matches "torment" in the code ("storment") but not in the model. ConvertedCategoryFollowsDescription therefore holds only for the ASCII case mapping.
- The GUI (ui/interfaz.py), map generation (core/mapas.py), the geodesic distance (core/calculos.py, a call into geopy), main.py and the airport table (data/aeropuertos.py) are not part of this model. They hold no classification logic.
