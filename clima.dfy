/**
 * The weather module of the route planner (core/clima.py): the condition
 * record, its conversion from an OpenWeather payload, the choice between
 * live and simulated data, the flight-rule classifier, the safety verdict
 * and the data-source label.
 *
 * Visibility is in kilometres, wind in km/h, temperature in degrees Celsius.
 * The HTTP request, the random generator and the `round(..., 1)` calls are
 * not modelled: the response and the simulator's output are parameters.
 */
module Clima {
  import opened Wrappers
  import opened Text

  /** Flight-rule categories, from best (VFR) to worst (LIFR). */
  datatype Category = VFR | MVFR | IFR | LIFR {

    /** Severity: the larger, the worse the weather. */
    function Rank(): (n: nat)
      ensures n <= 3
      ensures n == 0 <==> this == VFR
      ensures n == 1 <==> this == MVFR
      ensures n == 2 <==> this == IFR
      ensures n == 3 <==> this == LIFR
    {
      match this
      case VFR => 0
      case MVFR => 1
      case IFR => 2
      case LIFR => 3
    }
  }

  /** The condition record: the dictionary with keys temperatura, viento, visibilidad and nubosidad. */
  datatype Conditions = Conditions(temperature: real, wind: real, visibility: real, sky: string)

  const LifrMessage: string := "Condiciones extremadamente limitadas. Vuelo VFR prohibido."
  const IfrMessage: string := "Condiciones malas. Solo vuelo por instrumentos."
  const MvfrMessage: string := "Condiciones marginales. Precaución: visibilidad o nubosidad reducida."
  const VfrMessage: string := "Condiciones buenas para vuelo visual."

  /** The explanation the classifier pairs with each category; each phrase belongs to exactly one category. */
  function Message(cat: Category): (r: string)
    ensures r == LifrMessage <==> cat == LIFR
    ensures r == IfrMessage <==> cat == IFR
    ensures r == MvfrMessage <==> cat == MVFR
    ensures r == VfrMessage <==> cat == VFR
  {
    match cat
    case LIFR => LifrMessage
    case IFR => IfrMessage
    case MVFR => MvfrMessage
    case VFR => VfrMessage
  }

  /** The sky text, lower-cased, mentions cloud cover ("nublado") or a storm ("torment"). */
  predicate MarginalSky(sky: string)
    ensures MarginalSky(sky) ==> 7 <= |sky|
    ensures MarginalSky(sky) <==> Occurs(Lower(sky), "nublado") || Occurs(Lower(sky), "torment")
  {
    var clouds := Lower(sky);
    ContainsIffOccurs(clouds, "nublado");
    ContainsIffOccurs(clouds, "torment");
    assert |"nublado"| == |"torment"| == 7;
    Contains(clouds, "nublado") || Contains(clouds, "torment")
  }

  /**
   * determinar_reglas_vuelo: a first-match ladder on visibility, where only the
   * MVFR rung also looks at the sky text. Each category is characterised by
   * the region of inputs that yields it.
   */
  function DetermineFlightRules(c: Conditions): (r: (Category, string))
    ensures r.1 == Message(r.0)
    ensures r.0 == LIFR <==> c.visibility < 1.0
    ensures r.0 == IFR <==> 1.0 <= c.visibility < 5.0
    ensures r.0 == MVFR <==> 5.0 <= c.visibility && (c.visibility < 10.0 || MarginalSky(c.sky))
    ensures r.0 == VFR <==> 10.0 <= c.visibility && !MarginalSky(c.sky)
  {
    var visKm := c.visibility;
    var clouds := Lower(c.sky);
    if visKm < 1.0 then (LIFR, LifrMessage)
    else if visKm < 5.0 then (IFR, IfrMessage)
    else if visKm < 10.0 || Contains(clouds, "nublado") || Contains(clouds, "torment") then (MVFR, MvfrMessage)
    else (VFR, VfrMessage)
  }

  /** The category alone, as es_condicion_segura unpacks it. */
  function CategoryOf(c: Conditions): (r: Category)
    ensures DetermineFlightRules(c) == (r, Message(r))
  {
    DetermineFlightRules(c).0
  }

  /**
   * es_condicion_segura: safe when the category is VFR or MVFR, which comes
   * down to a visibility of at least 5 km; wind, temperature and sky play no part.
   */
  function IsSafe(c: Conditions): (r: bool)
    ensures r <==> 5.0 <= c.visibility
    ensures r <==> CategoryOf(c).Rank() <= 1
  {
    var (category, _) := DetermineFlightRules(c);
    category == VFR || category == MVFR
  }

  // ----- Properties of the classifier -----

  /** Below 1 km the category is LIFR and in [1, 5) km it is IFR, whatever the sky text. */
  lemma LowVisibilityIgnoresSky(c: Conditions, sky: string)
    requires c.visibility < 5.0
    ensures DetermineFlightRules(c.(sky := sky)) == DetermineFlightRules(c)
    ensures CategoryOf(c) == if c.visibility < 1.0 then LIFR else IFR
  {
  }

  /** The sky keywords never push a record below MVFR: changing the sky text moves at most between VFR and MVFR. */
  lemma SkyOnlyDecidesVfrOrMvfr(c: Conditions, sky: string)
    ensures CategoryOf(c.(sky := sky)) == CategoryOf(c)
         || (CategoryOf(c).Rank() <= 1 && CategoryOf(c.(sky := sky)).Rank() <= 1)
  {
  }

  /** With the sky text fixed, lower visibility never gives a better category. */
  lemma MonotoneInVisibility(c: Conditions, lower: real)
    requires lower <= c.visibility
    ensures CategoryOf(c.(visibility := lower)).Rank() >= CategoryOf(c).Rank()
  {
  }

  /** The sky text counts only through its lower-cased form: changing letter case changes nothing. */
  lemma CaseInsensitive(c: Conditions, sky: string)
    requires SameUpToCase(c.sky, sky)
    ensures DetermineFlightRules(c.(sky := sky)) == DetermineFlightRules(c)
  {
    SameUpToCaseIffSameLower(c.sky, sky);
  }

  /** "Nublado" and "NUBLADO" both give MVFR at any visibility of 5 km or more. */
  lemma CloudyExamples(c: Conditions, sky: string)
    requires 5.0 <= c.visibility
    requires sky == "Nublado" || sky == "NUBLADO"
    ensures CategoryOf(c.(sky := sky)) == MVFR
  {
    CloudySkyMarginal(sky);
  }

  // ----- Simulated data -----

  /** Sky texts the simulator draws from. */
  const SimulatedSkies: seq<string> := ["Despejado", "Parcial", "Nublado", "Tormentoso"]

  /** A record within the simulator's ranges (obtener_condiciones_simuladas). */
  predicate InSimulatorRange(c: Conditions)
    ensures InSimulatorRange(c) ==> Capitalize(c.sky) == c.sky
  {
    var inRange :=
      && 15.0 <= c.temperature <= 35.0
      && 0.0 <= c.wind <= 25.0
      && 1.0 <= c.visibility <= 20.0
      && c.sky in SimulatedSkies;
    if inRange then SimulatedSkyCapitalized(c.sky); true else false
  }

  /** The simulator's sky texts are already in the form `capitalize()` gives a live description. */
  lemma SimulatedSkyCapitalized(sky: string)
    requires sky in SimulatedSkies
    ensures Capitalize(sky) == sky
  {
    CapitalizeFixed(sky);
  }

  /** "Nublado", in any of these spellings, mentions cloud cover. */
  lemma CloudySkyMarginal(sky: string)
    requires sky == "Nublado" || sky == "NUBLADO"
    ensures MarginalSky(sky)
  {
    var clouds := Lower(sky);
    if sky == "Nublado" {
      assert clouds == "nublado";
    } else {
      assert clouds == "nublado";
    }
    ContainsPrefix(clouds, "nublado");
  }

  /** "Tormentoso" mentions a storm. */
  lemma StormySkyMarginal(sky: string)
    requires sky == "Tormentoso"
    ensures MarginalSky(sky)
  {
    var clouds := Lower(sky);
    assert clouds == "tormentoso";
    ContainsPrefix(clouds, "torment");
  }

  /**
   * A sky text with no letter n and no letter t, in either case, cannot be
   * marginal: each keyword starts with one of them.
   */
  lemma NoKeywordInitialNotMarginal(sky: string)
    requires 'n' !in sky && 'N' !in sky && 't' !in sky && 'T' !in sky
    ensures !MarginalSky(sky)
  {
    var clouds := Lower(sky);
    assert 'n' !in clouds && 't' !in clouds by {
      forall i | 0 <= i < |clouds|
        ensures clouds[i] != 'n' && clouds[i] != 't'
      {
        assert sky[i] in sky;
      }
    }
    MissingFirstCharNotContained(clouds, "nublado");
    MissingFirstCharNotContained(clouds, "torment");
  }

  /** "Despejado" and "Parcial" mention neither keyword. */
  lemma ClearSkiesNotMarginal(sky: string)
    requires sky == "Despejado" || sky == "Parcial"
    ensures !MarginalSky(sky)
  {
    NoKeywordInitialNotMarginal(sky);
  }

  /**
   * A simulated record is never LIFR; with "Nublado" or "Tormentoso" it is never
   * VFR; with "Despejado" or "Parcial" it is VFR exactly from 10 km on.
   */
  lemma SimulatedCategories(c: Conditions)
    requires InSimulatorRange(c)
    ensures CategoryOf(c) != LIFR
    ensures c.sky == "Nublado" || c.sky == "Tormentoso" ==> CategoryOf(c) != VFR
    ensures c.sky == "Despejado" || c.sky == "Parcial" ==> (CategoryOf(c) == VFR <==> 10.0 <= c.visibility)
  {
    if c.sky == "Nublado" {
      CloudySkyMarginal(c.sky);
    }
    if c.sky == "Tormentoso" {
      StormySkyMarginal(c.sky);
    }
    if c.sky == "Despejado" || c.sky == "Parcial" {
      ClearSkiesNotMarginal(c.sky);
    }
  }

  // ----- Live data -----

  /**
   * The parts of an OpenWeather reply that are read: main.temp, wind.speed
   * (m/s), visibility (metres, optional) and the descriptions of the weather
   * list. A key the code indexes directly is an Option here because its absence
   * raises and is caught.
   */
  datatype Payload = Payload(
    temp: Option<real>,
    windSpeed: Option<real>,
    visibilityMetres: Option<real>,
    descriptions: seq<string>)

  /** The visibility used when the reply carries none, in metres. */
  const DefaultVisibilityMetres: real := 10000.0

  /**
   * The field conversion of obtener_condiciones_meteorologicas: m/s to km/h,
   * metres to kilometres (10000 m when absent), the first description
   * capitalized. None when a field the code indexes directly is missing
   * (a KeyError or IndexError, which the code catches).
   */
  function ConvertPayload(p: Payload): (r: Option<Conditions>)
    ensures r.None? <==> p.temp.None? || p.windSpeed.None? || p.descriptions == []
    ensures r.Some? ==> r.value.temperature == p.temp.value
    ensures r.Some? ==> r.value.wind / 3.6 == p.windSpeed.value
    ensures r.Some? ==> r.value.visibility * 1000.0 == p.visibilityMetres.GetOr(DefaultVisibilityMetres)
    ensures r.Some? && p.visibilityMetres.None? ==> r.value.visibility == 10.0
    ensures r.Some? ==> r.value.sky == Capitalize(p.descriptions[0])
    ensures r.Some? ==> SameUpToCase(r.value.sky, p.descriptions[0])
  {
    if p.temp.None? || p.windSpeed.None? || p.descriptions == [] then None
    else
      var temperature := p.temp.value;
      var wind := p.windSpeed.value * 3.6;
      var visKm := p.visibilityMetres.GetOr(DefaultVisibilityMetres) / 1000.0;
      var clouds := Capitalize(p.descriptions[0]);
      CapitalizeSameUpToCase(p.descriptions[0]);
      Some(Conditions(temperature, wind, visKm, clouds))
  }

  /** A reply without visibility classifies as VFR or MVFR, hence safe. */
  lemma MissingVisibilityIsSafe(p: Payload)
    requires ConvertPayload(p).Some? && p.visibilityMetres.None?
    ensures CategoryOf(ConvertPayload(p).value).Rank() <= 1
    ensures IsSafe(ConvertPayload(p).value)
  {
  }

  /** Capitalizing the description never changes the category it leads to. */
  lemma ConvertedCategoryFollowsDescription(p: Payload)
    requires ConvertPayload(p).Some?
    ensures MarginalSky(ConvertPayload(p).value.sky) == MarginalSky(p.descriptions[0])
  {
    LowerOfCapitalize(p.descriptions[0]);
  }

  /**
   * The configured API key: `os.getenv` gives None when the variable is unset
   * and a possibly empty string otherwise.
   */
  type ApiKey = Option<string>

  /** Python truthiness of the key, the test of fuente_datos: present and of non-zero length. */
  predicate KeyIsTruthy(key: ApiKey)
    ensures KeyIsTruthy(key) <==> key.Some? && |key.value| > 0
  {
    key.Some? && key.value != ""
  }

  /**
   * The test of obtener_condiciones_meteorologicas: `API_KEY is None` skips the
   * live call. It lets through every truthy key and, beyond those, only the empty one.
   */
  predicate AttemptsLiveCall(key: ApiKey)
    ensures AttemptsLiveCall(key) <==> KeyIsTruthy(key) || key == Some("")
  {
    key.Some?
  }

  /**
   * obtener_condiciones_meteorologicas with the HTTP exchange as a parameter:
   * `response` is None when the request or JSON decoding raised, and
   * `simulated` is what obtener_condiciones_simuladas would return.
   */
  function ObtainConditions(key: ApiKey, response: Option<Payload>, simulated: Conditions): (r: Conditions)
    ensures !AttemptsLiveCall(key) ==> r == simulated
    ensures r != simulated ==> response.Some? && ConvertPayload(response.value) == Some(r)
    ensures (AttemptsLiveCall(key) && response.Some? && ConvertPayload(response.value).Some?)
      ==> r == ConvertPayload(response.value).value
  {
    if key.None? then simulated
    else if response.None? then simulated
    else match ConvertPayload(response.value)
      case None => simulated
      case Some(c) => c
  }

  const LiveSourceText: string := "Datos meteorológicos obtenidos desde API externa (OpenWeather)"
  const SimulatedSourceText: string := "Datos meteorológicos simulados (modo offline)"

  /** fuente_datos: the OpenWeather label exactly when the key is truthy, the offline label otherwise. */
  function DataSource(key: ApiKey): (r: string)
    ensures r == LiveSourceText <==> KeyIsTruthy(key)
    ensures r == SimulatedSourceText <==> !KeyIsTruthy(key)
  {
    if KeyIsTruthy(key) then LiveSourceText else SimulatedSourceText
  }

  /** Whenever the label says OpenWeather, a live call is attempted. */
  lemma LiveLabelImpliesLiveCall(key: ApiKey)
    requires DataSource(key) == LiveSourceText
    ensures AttemptsLiveCall(key)
  {
  }

  /**
   * The two tests disagree on an empty key: the label says simulated while the
   * live call is still made, and a well-formed reply is used as is.
   */
  lemma EmptyKeyLabelMismatch(p: Payload, simulated: Conditions)
    requires ConvertPayload(p).Some?
    ensures DataSource(Some("")) == SimulatedSourceText
    ensures AttemptsLiveCall(Some(""))
    ensures ObtainConditions(Some(""), Some(p), simulated) == ConvertPayload(p).value
  {
  }
}
