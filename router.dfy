/**
  Alert routing (libraries/router.py): the parser for line-oriented GCN
  classic notices, the fixed topic dispatch, the required-key reads of the
  classic and JSON handlers, the BAT-GUANO record-number branching, and the
  per-event file lifecycle of gravitational-wave alerts.
*/
module Router {
  import opened Wrappers
  import PyStr
  import Skymap
  import Priority

  // ---------------------------------------------------------------------------
  // Classic text notices

  /** The entry a notice line contributes to the parameter dictionary. */
  function Entry(line: string): Option<(string, string)> {
    var parts := PyStr.Split(line, ": ");
    if |parts| > 1 then Some((PyStr.Strip(parts[0]), PyStr.Strip(parts[1]))) else None
  }

  /** A line contributes an entry exactly when it contains ": ". */
  lemma EntryIffSeparator(line: string)
    ensures Entry(line).Some? <==> PyStr.Contains(line, ": ")
  {
    PyStr.SplitFirst(line, ": ");
  }

  /** The key is the stripped text before the first ": " and the value the
      stripped text between the first and the second. */
  lemma EntryFromSeparator(line: string)
    requires PyStr.Contains(line, ": ")
    ensures PyStr.Find(line, ": ").Some?
    ensures var i := PyStr.Find(line, ": ").value;
            var rest := line[i + 2..];
            && Entry(line).Some?
            && Entry(line).value.0 == PyStr.Strip(line[..i])
            && Entry(line).value.1 == PyStr.Strip(match PyStr.Find(rest, ": ")
                                                  case None => rest
                                                  case Some(k) => rest[..k])
  {
    PyStr.SplitFirst(line, ": ");
    PyStr.SplitSecond(line, ": ");
  }

  /** The entries of the notice's lines, in line order. */
  function Entries(lines: seq<string>): (es: seq<(string, string)>)
    ensures |es| <= |lines|
  {
    if lines == [] then []
    else
      var init := Entries(lines[..|lines| - 1]);
      match Entry(lines[|lines| - 1])
      case None => init
      case Some(e) => init + [e]
  }

  /** `dict(zip(keys, items))`: later pairs overwrite earlier ones. */
  function ToDict(es: seq<(string, string)>): map<string, string> {
    if es == [] then map[]
    else
      var last := es[|es| - 1];
      ToDict(es[..|es| - 1])[last.0 := last.1]
  }

  /** The dictionary `decode_classic_notice` returns for a notice text. */
  function NoticeParams(text: string): map<string, string> {
    ToDict(Entries(PyStr.Split(text, "\n")))
  }

  function Zip(keys: seq<string>, items: seq<string>): (es: seq<(string, string)>)
    requires |keys| == |items|
    ensures |es| == |keys| && forall k :: 0 <= k < |keys| ==> es[k] == (keys[k], items[k])
  {
    seq(|keys|, k requires 0 <= k < |keys| => (keys[k], items[k]))
  }

  /** router.py:18-41: collect the stripped key and item of every line that
      contains ": ", then build the dictionary from the two lists. */
  method DecodeClassicNotice(text: string) returns (params: map<string, string>)
    ensures params == NoticeParams(text)
  {
    var contents := PyStr.Split(text, "\n");
    var keys, items := NoticeLines(contents);
    params := DictOfZip(keys, items);
  }

  /** router.py:26-33: the keys and items of the lines, in order. */
  method NoticeLines(contents: seq<string>) returns (keys: seq<string>, items: seq<string>)
    ensures |keys| == |items| && Zip(keys, items) == Entries(contents)
  {
    keys, items := [], [];
    var i := 0;
    while i < |contents|
      invariant 0 <= i <= |contents|
      invariant |keys| == |items|
      invariant Zip(keys, items) == Entries(contents[..i])
    {
      EntriesSnoc(contents, i);
      keys, items := NoticeLine(contents[i], keys, items);
      i := i + 1;
    }
    assert contents[..i] == contents;
  }

  /** router.py:27-33: one line of the notice. */
  method NoticeLine(line: string, keys: seq<string>, items: seq<string>) returns (keys': seq<string>, items': seq<string>)
    requires |keys| == |items|
    ensures |keys'| == |items'|
    ensures Zip(keys', items') == Zip(keys, items) + (match Entry(line)
                                                      case None => []
                                                      case Some(e) => [e])
  {
    var parts := PyStr.Split(line, ": ");
    keys', items' := keys, items;
    if |parts| > 1 {
      ZipSnoc(keys, items, PyStr.Strip(parts[0]), PyStr.Strip(parts[1]));
      keys' := keys + [PyStr.Strip(parts[0])];
      items' := items + [PyStr.Strip(parts[1])];
    }
  }

  /** `dict(zip(keys, items))` */
  method DictOfZip(keys: seq<string>, items: seq<string>) returns (d: map<string, string>)
    requires |keys| == |items|
    ensures d == ToDict(Zip(keys, items))
  {
    d := map[];
    var j := 0;
    while j < |keys|
      invariant 0 <= j <= |keys|
      invariant d == ToDict(Zip(keys, items)[..j])
    {
      assert Zip(keys, items)[..j + 1][..j] == Zip(keys, items)[..j];
      d := d[keys[j] := items[j]];
      j := j + 1;
    }
    assert Zip(keys, items)[..j] == Zip(keys, items);
  }

  lemma EntriesSnoc(lines: seq<string>, i: nat)
    requires i < |lines|
    ensures Entries(lines[..i + 1]) == Entries(lines[..i]) + (match Entry(lines[i])
                                                              case None => []
                                                              case Some(e) => [e])
  {
    assert lines[..i + 1][..i] == lines[..i];
  }

  lemma ZipSnoc(keys: seq<string>, items: seq<string>, k: string, v: string)
    requires |keys| == |items|
    ensures Zip(keys + [k], items + [v]) == Zip(keys, items) + [(k, v)]
  {
  }

  /** A key is in the dictionary exactly when some entry carries it. */
  lemma {:induction false} DictKeys(es: seq<(string, string)>, key: string)
    ensures key in ToDict(es) <==> exists j :: 0 <= j < |es| && es[j].0 == key
  {
    if es != [] {
      var init := es[..|es| - 1];
      DictKeys(init, key);
      if key in ToDict(init) {
        var j :| 0 <= j < |init| && init[j].0 == key;
        assert es[j].0 == key;
      }
      if j :| 0 <= j < |es| && es[j].0 == key {
        if j < |es| - 1 {
          assert init[j].0 == key;
        }
      }
    }
  }

  /** A key repeated on several lines keeps the value of its last line. */
  lemma {:induction false} DictLastWins(es: seq<(string, string)>, j: nat)
    requires j < |es|
    requires forall j' :: j < j' < |es| ==> es[j'].0 != es[j].0
    ensures es[j].0 in ToDict(es) && ToDict(es)[es[j].0] == es[j].1
  {
    if j < |es| - 1 {
      var init := es[..|es| - 1];
      assert init[j] == es[j];
      DictLastWins(init, j);
    }
  }

  /** Every line that yields an entry contributes it. */
  lemma {:induction false} EntryInEntries(lines: seq<string>, i: nat)
    requires i < |lines| && Entry(lines[i]).Some?
    ensures Entry(lines[i]).value in Entries(lines)
    decreases |lines|
  {
    var init := lines[..|lines| - 1];
    if i < |lines| - 1 {
      assert init[i] == lines[i];
      EntryInEntries(init, i);
    }
  }

  /** Every entry comes from a line that yields it. */
  lemma {:induction false} EntryOfEntries(lines: seq<string>, kv: (string, string)) returns (i: nat)
    requires kv in Entries(lines)
    ensures i < |lines| && Entry(lines[i]) == Some(kv)
    decreases |lines|
  {
    var init := lines[..|lines| - 1];
    if kv in Entries(init) {
      i := EntryOfEntries(init, kv);
      assert init[i] == lines[i];
    } else {
      i := |lines| - 1;
    }
  }

  /** Line `l` yields an entry for `key`. */
  predicate HasKey(l: string, key: string) {
    Entry(l).Some? && Entry(l).value.0 == key
  }

  lemma DictOfLinesKeys(lines: seq<string>, key: string)
    ensures key in ToDict(Entries(lines)) <==> exists l :: l in lines && HasKey(l, key)
  {
    var es := Entries(lines);
    DictKeys(es, key);
    if key in ToDict(es) {
      var j :| 0 <= j < |es| && es[j].0 == key;
      var i := EntryOfEntries(lines, es[j]);
      assert HasKey(lines[i], key);
    }
    if l :| l in lines && HasKey(l, key) {
      var i :| 0 <= i < |lines| && lines[i] == l;
      EntryInEntries(lines, i);
      var j :| 0 <= j < |es| && es[j] == Entry(l).value;
    }
  }

  /** A key is in the decoded notice exactly when some line yields an entry
      for it. */
  lemma NoticeKeyIff(text: string, key: string)
    ensures key in NoticeParams(text) <==> exists l :: l in PyStr.Split(text, "\n") && HasKey(l, key)
  {
    DictOfLinesKeys(PyStr.Split(text, "\n"), key);
  }

  /** `params[k]` for every k in order: the values, or the first key whose
      lookup raises KeyError. */
  function ReadKeys<V>(params: map<string, V>, keys: seq<string>): (r: Result<seq<V>, string>)
    ensures r.Ok? <==> forall k :: k in keys ==> k in params
    ensures r.Ok? ==> |r.value| == |keys| && forall i :: 0 <= i < |keys| ==> r.value[i] == params[keys[i]]
    ensures r.Err? ==> (r.error !in params &&
              exists i :: 0 <= i < |keys| && keys[i] == r.error && forall j :: 0 <= j < i ==> keys[j] in params)
  {
    if keys == [] then Ok([])
    else if keys[0] !in params then Err(keys[0])
    else
      match ReadKeys(params, keys[1..])
      case Ok(vs) => Ok([params[keys[0]]] + vs)
      case Err(k) =>
        assert forall j :: 1 <= j < |keys| ==> keys[j] == keys[1..][j - 1];
        Err(k)
  }

  // ---------------------------------------------------------------------------
  // Topics and dispatch

  const GwTopic := "igwn.gwalert"
  const IceCubeTopic := "gcn.notices.icecube.lvk_nu_track_search"
  const GuanoTopic := "gcn.notices.swift.bat.guano"

  const JsonTopics: seq<string> := [GwTopic, IceCubeTopic, GuanoTopic]

  const FermiTopics: seq<string> := [
    "gcn.classic.text.FERMI_GBM_ALERT", "gcn.classic.text.FERMI_GBM_FIN_POS",
    "gcn.classic.text.FERMI_GBM_FLT_POS", "gcn.classic.text.FERMI_GBM_GND_POS",
    "gcn.classic.text.FERMI_GBM_POS_TEST", "gcn.classic.text.FERMI_GBM_SUBTHRESH",
    "gcn.classic.text.FERMI_POINTDIR"]

  const SwiftTopics: seq<string> := [
    "gcn.classic.text.SWIFT_ACTUAL_POINTDIR", "gcn.classic.text.SWIFT_BAT_GRB_POS_TEST",
    "gcn.classic.text.SWIFT_POINTDIR"]

  /** The topics the listener subscribes to (config.py). */
  const AvailableTopics: seq<string> := [
    "igwn.gwalert", "gcn.notices.icecube.lvk_nu_track_search", "gcn.notices.swift.bat.guano",
    "gcn.classic.text.FERMI_GBM_ALERT", "gcn.classic.text.FERMI_GBM_FIN_POS",
    "gcn.classic.text.FERMI_GBM_FLT_POS", "gcn.classic.text.FERMI_GBM_GND_POS",
    "gcn.classic.text.FERMI_GBM_POS_TEST", "gcn.classic.text.FERMI_GBM_SUBTHRESH",
    "gcn.classic.text.FERMI_LAT_MONITOR", "gcn.classic.text.FERMI_LAT_OFFLINE",
    "gcn.classic.text.FERMI_LAT_POS_TEST", "gcn.classic.text.FERMI_POINTDIR",
    "gcn.classic.text.ICECUBE_ASTROTRACK_BRONZE", "gcn.classic.text.ICECUBE_ASTROTRACK_GOLD",
    "gcn.classic.text.ICECUBE_CASCADE", "gcn.classic.text.SWIFT_ACTUAL_POINTDIR",
    "gcn.classic.text.SWIFT_BAT_GRB_LC", "gcn.classic.text.SWIFT_BAT_GRB_POS_ACK",
    "gcn.classic.text.SWIFT_BAT_GRB_POS_TEST", "gcn.classic.text.SWIFT_BAT_QL_POS",
    "gcn.classic.text.SWIFT_BAT_SCALEDMAP", "gcn.classic.text.SWIFT_BAT_TRANS",
    "gcn.classic.text.SWIFT_FOM_OBS", "gcn.classic.text.SWIFT_POINTDIR",
    "gcn.classic.text.SWIFT_SC_SLEW", "gcn.classic.text.SWIFT_TOO_FOM",
    "gcn.classic.text.SWIFT_TOO_SC_SLEW", "gcn.classic.text.SWIFT_UVOT_DBURST",
    "gcn.classic.text.SWIFT_UVOT_DBURST_PROC", "gcn.classic.text.SWIFT_UVOT_EMERGENCY",
    "gcn.classic.text.SWIFT_UVOT_FCHART", "gcn.classic.text.SWIFT_UVOT_FCHART_PROC",
    "gcn.classic.text.SWIFT_UVOT_POS", "gcn.classic.text.SWIFT_UVOT_POS_NACK",
    "gcn.classic.text.SWIFT_XRT_CENTROID", "gcn.classic.text.SWIFT_XRT_IMAGE",
    "gcn.classic.text.SWIFT_XRT_IMAGE_PROC", "gcn.classic.text.SWIFT_XRT_LC",
    "gcn.classic.text.SWIFT_XRT_POSITION", "gcn.classic.text.SWIFT_XRT_SPECTRUM",
    "gcn.classic.text.SWIFT_XRT_SPECTRUM_PROC", "gcn.classic.text.SWIFT_XRT_SPER",
    "gcn.classic.text.SWIFT_XRT_SPER_PROC", "gcn.classic.text.SWIFT_XRT_THRESHPIX",
    "gcn.classic.text.SWIFT_XRT_THRESHPIX_PROC"]

  datatype Handler =
    | KafkaJson       // process_kafka_alert
    | FermiClassic    // process_fermi_classic_alert
    | SwiftClassic    // process_swift_classic_alert
    | VerboseDecode   // decode_classic_notice(value, verbose=True); never an error

  /** route_alert: the handler each topic is given to. */
  function Route(topic: string): Handler {
    if topic == "igwn.gwalert" then KafkaJson
    else if topic == "gcn.notices.icecube.lvk_nu_track_search" then KafkaJson
    else if topic == "gcn.notices.swift.bat.guano" then KafkaJson
    else if topic == "gcn.classic.text.FERMI_GBM_ALERT" then FermiClassic
    else if topic == "gcn.classic.text.FERMI_GBM_FIN_POS" then FermiClassic
    else if topic == "gcn.classic.text.FERMI_GBM_FLT_POS" then FermiClassic
    else if topic == "gcn.classic.text.FERMI_GBM_GND_POS" then FermiClassic
    else if topic == "gcn.classic.text.FERMI_GBM_POS_TEST" then FermiClassic
    else if topic == "gcn.classic.text.FERMI_GBM_SUBTHRESH" then FermiClassic
    else if topic == "gcn.classic.text.FERMI_POINTDIR" then FermiClassic
    else if topic == "gcn.classic.text.SWIFT_ACTUAL_POINTDIR" then SwiftClassic
    else if topic == "gcn.classic.text.SWIFT_BAT_GRB_POS_TEST" then SwiftClassic
    else if topic == "gcn.classic.text.SWIFT_POINTDIR" then SwiftClassic
    else VerboseDecode
  }

  /** The three Kafka topics, and only they, go to the JSON handler. */
  lemma RouteJson(topic: string)
    ensures Route(topic) == KafkaJson <==> topic in JsonTopics
  {
  }

  /** The seven Fermi topics, and only they, go to the Fermi handler. */
  lemma RouteFermi(topic: string)
    ensures Route(topic) == FermiClassic <==> topic in FermiTopics
  {
    if topic in FermiTopics {
      FermiTopicsRouted(topic);
    }
  }

  lemma FermiTopicsRouted(topic: string)
    requires topic in FermiTopics
    ensures Route(topic) == FermiClassic
  {
  }

  /** The three Swift topics, and only they, go to the Swift handler. */
  lemma RouteSwift(topic: string)
    ensures Route(topic) == SwiftClassic <==> topic in SwiftTopics
  {
    if topic in SwiftTopics {
      SwiftTopicsRouted(topic);
    }
  }

  lemma SwiftTopicsRouted(topic: string)
    requires topic in SwiftTopics
    ensures Route(topic) == SwiftClassic
  {
  }

  /** Every other topic is decoded verbosely. */
  lemma RouteOther(topic: string)
    ensures Route(topic) == VerboseDecode <==> topic !in JsonTopics + FermiTopics + SwiftTopics
  {
    RouteJson(topic);
    RouteFermi(topic);
    RouteSwift(topic);
  }

  /** Every handled topic is subscribed to, and subscribed topics without a
      handler, such as FERMI_LAT_MONITOR, fall through to the verbose decode. */
  lemma DispatchCoversSubscriptions()
    ensures forall t :: t in JsonTopics + FermiTopics + SwiftTopics ==> t in AvailableTopics
    ensures Route("gcn.classic.text.FERMI_LAT_MONITOR") == VerboseDecode
    ensures Route("gcn.classic.text.ICECUBE_CASCADE") == VerboseDecode
    ensures Route("gcn.classic.text.SWIFT_XRT_POSITION") == VerboseDecode
  {
  }

  // ---------------------------------------------------------------------------
  // Classic handlers: the parameters each topic reads

  /** The keys process_fermi_classic_alert reads for each of its topics, in
      order; a topic without a branch reads nothing. */
  function FermiKeys(topic: string): seq<string> {
    if topic == "gcn.classic.text.FERMI_GBM_ALERT" then
      ["TITLE", "NOTICE_DATE", "NOTICE_TYPE", "RECORD_NUM", "TRIGGER_NUM", "GRB_DATE", "GRB_TIME",
       "TRIGGER_SIGNIF", "TRIGGER_DUR", "E_RANGE", "ALGORITHM", "DETECTORS", "COMMENTS"]
    else if topic == "gcn.classic.text.FERMI_GBM_FIN_POS" then
      ["TITLE", "NOTICE_DATE", "NOTICE_TYPE", "RECORD_NUM", "TRIGGER_NUM", "GRB_RA", "GRB_DEC",
       "GRB_ERROR", "GRB_DATE", "GRB_TIME", "GRB_PHI", "GRB_THETA", "E_RANGE", "LOC_ALGORITHM",
       "LC_URL", "LOC_URL", "SUN_POSTN", "SUN_DIST", "MOON_POSTN", "MOON_DIST", "MOON_ILLUM",
       "GAL_COORDS", "ECL_COORDS", "COMMENTS"]
    else if topic == "gcn.classic.text.FERMI_GBM_FLT_POS" then
      ["TITLE", "NOTICE_DATE", "NOTICE_TYPE", "RECORD_NUM", "TRIGGER_NUM", "GRB_RA", "GRB_DEC",
       "GRB_ERROR", "GRB_INTEN", "DATA_SIGNIF", "INTEG_TIME", "GRB_DATE", "GRB_TIME", "GRB_PHI",
       "GRB_THETA", "HARD_RATIO", "LOC_ALGORITHM", "MOST_LIKELY", "2nd_MOST_LIKELY", "DETECTORS",
       "LC_URL", "SUN_POSTN", "SUN_DIST", "MOON_POSTN", "MOON_DIST", "MOON_ILLUM", "GAL_COORDS",
       "ECL_COORDS", "COMMENTS"]
    else if topic == "gcn.classic.text.FERMI_GBM_GND_POS" then
      ["TITLE", "NOTICE_DATE", "NOTICE_TYPE", "RECORD_NUM", "TRIGGER_NUM", "GRB_RA", "GRB_DEC",
       "GRB_ERROR", "DATA_SIGNIF", "DATA_INTERVAL", "GRB_DATE", "GRB_TIME", "GRB_PHI", "GRB_THETA",
       "E_RANGE", "LOC_ALGORITHM", "LC_URL", "SUN_POSTN", "SUN_DIST", "MOON_POSTN", "MOON_DIST",
       "MOON_ILLUM", "GAL_COORDS", "ECL_COORDS", "COMMENTS"]
    else if topic == "gcn.classic.text.FERMI_GBM_POS_TEST" then
      ["TITLE", "NOTICE_DATE", "NOTICE_TYPE", "RECORD_NUM", "TRIGGER_NUM", "GRB_RA", "GRB_DEC",
       "GRB_ERROR", "GRB_INTEN", "DATA_SIGNIF", "INTEG_TIME", "GRB_DATE", "GRB_TIME", "GRB_PHI",
       "GRB_THETA", "DATA_TIME_SCALE", "HARD_RATIO", "LOC_ALGORITHM", "MOST_LIKELY",
       "2nd_MOST_LIKELY", "DETECTORS", "SUN_POSTN", "SUN_DIST", "MOON_POSTN", "MOON_DIST",
       "MOON_ILLUM", "GAL_COORDS", "ECL_COORDS", "COMMENTS"]
    else if topic == "gcn.classic.text.FERMI_GBM_SUBTHRESH" then
      ["TITLE", "NOTICE_DATE", "NOTICE_TYPE", "TRANS_NUM", "FULL_ID_NUM", "TRANS_RA", "TRANS_DEC",
       "TRANS_ERROR", "TRANS_DURATION", "TRANS_DATE", "TRANS_TIME", "EARTH_ANGLE", "SPECTRAL_CLASS",
       "TYPE_CLASS", "RELIABILITY", "HEALPIX_URL", "MAP_URL", "LC_URL", "SUN_POSTN", "SUN_DIST",
       "MOON_POSTN", "MOON_DIST", "MOON_ILLUM", "GAL_COORDS", "ECL_COORDS", "COMMENTS"]
    else if topic == "gcn.classic.text.FERMI_POINTDIR" then
      ["TITLE", "NOTICE_DATE", "NOTICE_TYPE", "CURR_POINT_RA", "CURR_POINT_DEC", "CURR_DATE",
       "CURR_TIME", "DELTA_TIME", "SUN_POSTN", "SUN_DIST", "MOON_POSTN", "MOON_DIST", "MOON_ILLUM",
       "GAL_COORDS", "ECL_COORDS", "FUTURE_RA_DEC", "COMMENTS"]
    else []
  }

  /** The keys process_swift_classic_alert reads for each of its topics. */
  function SwiftKeys(topic: string): seq<string> {
    if topic == "gcn.classic.text.SWIFT_ACTUAL_POINTDIR" then
      ["TITLE", "NOTICE_DATE", "NOTICE_TYPE", "CURR_POINT_RA", "CURR_POINT_DEC", "CURR_POINT_ROLL",
       "SLEW_TIME", "SLEW_DATE", "TGT_NUM", "SUN_POSTN", "SUN_DIST", "MOON_POSTN", "MOON_DIST",
       "MOON_ILLUM", "GAL_COORDS", "ECL_COORDS", "COMMENTS"]
    else if topic == "gcn.classic.text.SWIFT_BAT_GRB_POS_TEST" then
      ["TITLE", "NOTICE_DATE", "NOTICE_TYPE", "TRIGGER_NUM", "GRB_RA", "GRB_DEC", "GRB_ERROR",
       "GRB_INTEN", "TRIGGER_DUR", "TRIGGER_INDEX", "BKG_INTEN", "BKG_TIME", "BKG_DUR", "GRB_DATE",
       "GRB_TIME", "GRB_PHI", "GRB_THETA", "SOLN_STATUS", "RATE_SIGNIF", "IMAGE_SIGNIF",
       "MERIT_PARAMS", "SUN_POSTN", "SUN_DIST", "MOON_POSTN", "MOON_DIST", "MOON_ILLUM",
       "GAL_COORDS", "ECL_COORDS", "COMMENTS"]
    else if topic == "gcn.classic.text.SWIFT_POINTDIR" then
      ["TITLE", "NOTICE_DATE", "NOTICE_TYPE", "NEXT_POINT_RA", "NEXT_POINT_DEC", "NEXT_POINT_ROLL",
       "SLEW_TIME", "SLEW_DATE", "OBS_TIME", "TGT_NAME", "TGT_NUM", "MERIT", "INST_MODES",
       "SUN_POSTN", "SUN_DIST", "MOON_POSTN", "MOON_DIST", "MOON_ILLUM", "GAL_COORDS",
       "ECL_COORDS", "COMMENTS"]
    else []
  }

  /** What a classic handler does with a notice: the values it reads, or the
      KeyError of the first missing key. */
  function ProcessClassic(text: string, topic: string): (r: Result<seq<string>, string>)
    ensures var ks := if Route(topic) == SwiftClassic then SwiftKeys(topic) else FermiKeys(topic);
            r.Ok? <==> forall k :: k in ks ==> k in NoticeParams(text)
  {
    var params := NoticeParams(text);
    if Route(topic) == SwiftClassic then ReadKeys(params, SwiftKeys(topic))
    else ReadKeys(params, FermiKeys(topic))
  }

  // ---------------------------------------------------------------------------
  // JSON notices other than gravitational-wave alerts

  /** A decoded JSON value, as far as the branching looks at it. */
  datatype Json = JNum(n: int) | JStr(s: string) | JObject(fields: map<string, Json>) | JOther

  /** Indexing a decoded record raises KeyError for a missing key and
      TypeError when the value indexed is not an object. */
  datatype LookupError = KeyError(key: string) | TypeError

  /** The plain top-level keys the IceCube branch reads, in order
      (router.py:873-885). */
  const IceCubeKeys: seq<string> := [
    "type", "reference", "ref_ID", "alert_datetime", "trigger_time", "observation_start",
    "observation_stop", "observation_livetime", "pval_generic", "pval_bayesian",
    "n_events_coincident", "coincident_events", "most_probable_direction"]

  /** The object read twice at router.py:886-887, and the keys read inside it. */
  const SensitivityRange := "neutrino_flux_sensitivity_range"
  const SensitivityKeys: seq<string> := ["flux_sensitivity", "sensitive_energy_range"]

  predicate HasKeys<V>(m: map<string, V>, keys: seq<string>) {
    forall k :: k in keys ==> k in m
  }

  /** `m[key]` is an object holding every key of `inner`. */
  predicate HasObject(m: map<string, Json>, key: string, inner: seq<string>) {
    key in m && m[key].JObject? && HasKeys(m[key].fields, inner)
  }

  /** `m[key][k]` for every k of `inner` in order: the values, or the error
      of the first lookup that raises. */
  function ReadNested(m: map<string, Json>, key: string, inner: seq<string>): (r: Result<seq<Json>, LookupError>)
    requires inner != []
    ensures r.Ok? <==> HasObject(m, key, inner)
    ensures r.Ok? ==> |r.value| == |inner| && forall i :: 0 <= i < |inner| ==> r.value[i] == m[key].fields[inner[i]]
    ensures key !in m ==> r == Err(KeyError(key))
    ensures r == Err(TypeError) <==> key in m && !m[key].JObject?
    ensures r.Err? && r.error.KeyError? && key in m ==>
              m[key].JObject? && r.error.key in inner && r.error.key !in m[key].fields
  {
    if key !in m then Err(KeyError(key))
    else if !m[key].JObject? then Err(TypeError)
    else
      match ReadKeys(m[key].fields, inner)
      case Err(k) => Err(KeyError(k))
      case Ok(values) => Ok(values)
  }

  /** The fifteen values the IceCube branch prints: the thirteen plain
      top-level values, then the two read inside the sensitivity range; or
      the error of the first lookup that raises. */
  function ProcessIceCube(record: map<string, Json>): (r: Result<seq<Json>, LookupError>)
    ensures r.Ok? <==>
              && HasKeys(record, IceCubeKeys) && SensitivityRange in record
              && record[SensitivityRange].JObject?
              && HasKeys(record[SensitivityRange].fields, SensitivityKeys)
    ensures r.Ok? ==>
              && |r.value| == |IceCubeKeys| + |SensitivityKeys|
              && (forall i :: 0 <= i < |IceCubeKeys| ==> r.value[i] == record[IceCubeKeys[i]])
              && (forall i :: 0 <= i < |SensitivityKeys| ==>
                    r.value[|IceCubeKeys| + i] == record[SensitivityRange].fields[SensitivityKeys[i]])
    ensures r == Err(TypeError) <==>
              HasKeys(record, IceCubeKeys) && SensitivityRange in record && !record[SensitivityRange].JObject?
    ensures r.Err? && r.error.KeyError? ==>
              || (r.error.key in IceCubeKeys && r.error.key !in record)
              || (r.error.key == SensitivityRange && r.error.key !in record)
              || (&& SensitivityRange in record && record[SensitivityRange].JObject?
                  && r.error.key in SensitivityKeys && r.error.key !in record[SensitivityRange].fields)
  {
    match ReadKeys(record, IceCubeKeys)
    case Err(k) => Err(KeyError(k))
    case Ok(values) =>
      match ReadNested(record, SensitivityRange, SensitivityKeys)
      case Err(e) => Err(e)
      case Ok(inner) => Ok(values + inner)
  }

  datatype GuanoBranch =
    | Standard     // record 1: rate-based detection
    | LocMap       // record 2: HEALPix localisation
    | LocArcMin    // record 3: arc-minute localisation
    | Retracted    // record 4
    | Unreadable   // "Could not read BAT-GUANO notice."

  const GuanoCommonKeys: seq<string> := [
    "mission", "instrument", "messenger", "record_number", "alert_datetime", "alert_tense",
    "alert_type", "trigger_time", "follow_up_event", "follow_up_type", "data_archive_page", "id"]

  function GuanoBranchKeys(b: GuanoBranch): seq<string> {
    match b
    case Standard => ["rate_snr", "rate_duration", "rate_energy_range", "classification", "far"]
    case LocMap => ["healpix_file", "systematic_included", "rate_snr", "rate_duration",
                    "rate_energy_range", "classification", "far"]
    case LocArcMin => ["ra", "dec", "ra_dec_error", "containment_probability", "systematic_included",
                       "image_snr", "image_duration", "image_energy_range", "rate_snr",
                       "rate_duration", "rate_energy_range", "classification", "far"]
    case Retracted => []
    case Unreadable => []
  }

  /** Python's `record_number == n` for a decoded JSON value. */
  predicate IsNumber(v: Json, n: int) {
    v.JNum? && v.n == n
  }

  /** The branches router.py:929-975 runs, as written: record 1 has an `if` of
      its own, and the `if`/`elif` chain after it sends it on to the final
      `else`. */
  function GuanoBranchesAsWritten(recordNumber: Json): seq<GuanoBranch> {
    (if IsNumber(recordNumber, 1) then [Standard] else [])
    + (if IsNumber(recordNumber, 2) then [LocMap]
       else if IsNumber(recordNumber, 3) then [LocArcMin]
       else if IsNumber(recordNumber, 4) then [Retracted]
       else [Unreadable])
  }

  /** The branching the notice formats call for: one branch per record. */
  function GuanoBranches(recordNumber: Json): seq<GuanoBranch> {
    if IsNumber(recordNumber, 1) then [Standard]
    else if IsNumber(recordNumber, 2) then [LocMap]
    else if IsNumber(recordNumber, 3) then [LocArcMin]
    else if IsNumber(recordNumber, 4) then [Retracted]
    else [Unreadable]
  }

  function BranchKeys(bs: seq<GuanoBranch>): seq<string> {
    if bs == [] then [] else GuanoBranchKeys(bs[0]) + BranchKeys(bs[1..])
  }

  /** The common reads, then the branches run for the record number with the
      keys each of them reads. */
  function ReadGuano(record: map<string, Json>, branching: Json -> seq<GuanoBranch>)
    : (r: Result<seq<GuanoBranch>, string>)
    ensures r.Ok? ==> "record_number" in record && r.value == branching(record["record_number"])
  {
    match ReadKeys(record, GuanoCommonKeys)
    case Err(k) => Err(k)
    case Ok(_) =>
      var bs := branching(record["record_number"]);
      match ReadKeys(record, BranchKeys(bs))
      case Err(k) => Err(k)
      case Ok(_) => Ok(bs)
  }

  /** As written, a well-formed record 1 is read and then also reported as
      unreadable. */
  lemma GuanoRecordOneFallsThrough(record: map<string, Json>)
    requires forall k :: k in GuanoCommonKeys + GuanoBranchKeys(Standard) ==> k in record
    requires record["record_number"] == JNum(1)
    ensures ReadGuano(record, GuanoBranchesAsWritten) == Ok([Standard, Unreadable])
  {
    var bs := GuanoBranchesAsWritten(JNum(1));
    assert bs == [Standard, Unreadable];
    assert BranchKeys([Unreadable]) == [];
    assert BranchKeys(bs) == GuanoBranchKeys(Standard) + BranchKeys([Unreadable]);
    assert forall k :: k in GuanoCommonKeys ==> k in record;
    assert forall k :: k in BranchKeys(bs) ==> k in record;
  }

  /** With one branch per record, a notice is reported unreadable exactly when
      its record number is not 1 to 4, and records 1 to 4 are each read by
      their own branch only. */
  lemma GuanoBranchesExclusive(recordNumber: Json)
    ensures |GuanoBranches(recordNumber)| == 1
    ensures Unreadable in GuanoBranches(recordNumber) <==>
              !(recordNumber.JNum? && 1 <= recordNumber.n <= 4)
    ensures GuanoBranches(recordNumber) != GuanoBranchesAsWritten(recordNumber) <==>
              IsNumber(recordNumber, 1)
  {
  }

  // ---------------------------------------------------------------------------
  // ---------------------------------------------------------------------------
  // Gravitational-wave alerts and the per-event files

  /** An `igwn.gwalert` record: its superevent id and alert type, the rest
      of the record as decoded JSON, the decoded sky map (None when the
      `skymap` entry of `event` is empty) and that sky map's FITS header. */
  datatype GwAlert = GwAlert(supereventId: string, alertType: string, record: map<string, Json>,
                             skymap: Option<seq<Skymap.Cell>>, header: map<string, Json>)

  datatype Origin = Mock | Real | UnknownOrigin

  datatype GwError =
    | EmptyId                        // superevent_id[0] raises IndexError
    | BadSkymap(e: Skymap.MapError)  // argmax / uniq_to_level_ipix raise ValueError
    | SkymapUnbound                  // no sky map, yet a ranked list is due: UnboundLocalError
    | NoFieldSize                    // field_generator divides by a FIELD_SIZE of 0: ZeroDivisionError
    | BadRecord(lookup: LookupError) // an update's record or sky-map header lacks a key it reads

  /** The event origin from the first character of the superevent id. */
  function OriginOf(id: string): (r: Result<Origin, GwError>)
    ensures r.Err? <==> id == []
    ensures r.Ok? ==> (r.value == Mock <==> id[0] == 'M' || id[0] == 'T')
    ensures r.Ok? ==> (r.value == Real <==> id[0] == 'S')
  {
    if id == [] then Err(EmptyId)
    else if id[0] == 'M' || id[0] == 'T' then Ok(Mock)
    else if id[0] == 'S' then Ok(Real)
    else Ok(UnknownOrigin)
  }

  /** What a per-event file holds. */
  datatype Artifact =
    | AlertRecord(alert: GwAlert)                           // <id>.json
    | SkymapFile(table: seq<Skymap.Cell>)                   // <id>-skymap.fits, densest first
    | MocFile(uniqs: seq<int>)                              // <id>-90percent.moc.fits
    | FieldRanking(fields: seq<Priority.RankedField>)       // <id>-skymap-fields.txt
    | GalaxyRanking(galaxies: seq<Priority.RankedGalaxy>)   // <id>-skymap-galaxies.txt

  /** The configuration and the outside inputs process_kafka_alert works
      with: the analysis and alert directories, the survey geometry and
      FIELD_GENERATION, the GLADE+ catalog, the Sun's RA when the alert is
      handled, and the crossmatch of a sky map with a sky position. */
  datatype Setup = Setup(
    analysisDir: string, alertsDir: string,
    geometry: Priority.Geometry, regenerate: bool,
    catalog: seq<Priority.CatalogRow>, sunRa: real,
    crossmatch: seq<Skymap.Cell> -> ((real, real) -> real))

  datatype EventPaths = EventPaths(fields: string, galaxies: string, json: string, skymap: string, moc: string)

  function PathsFor(analysisDir: string, alertsDir: string, id: string): (p: EventPaths)
    ensures p.fields != p.galaxies && p.fields != p.json && p.fields != p.skymap && p.fields != p.moc
    ensures p.galaxies != p.json && p.galaxies != p.skymap && p.galaxies != p.moc
    ensures p.json != p.skymap && p.json != p.moc && p.skymap != p.moc
  {
    var p := EventPaths(analysisDir + id + "-skymap-fields.txt", analysisDir + id + "-skymap-galaxies.txt",
                        alertsDir + id + ".json", alertsDir + id + "-skymap.fits",
                        alertsDir + id + "-90percent.moc.fits");
    EndsDiffer(analysisDir + id, "-skymap-fields.txt", analysisDir + id, "-skymap-galaxies.txt", 6);
    EndsDiffer(analysisDir + id, "-skymap-fields.txt", alertsDir + id, ".json", 1);
    EndsDiffer(analysisDir + id, "-skymap-fields.txt", alertsDir + id, "-skymap.fits", 1);
    EndsDiffer(analysisDir + id, "-skymap-fields.txt", alertsDir + id, "-90percent.moc.fits", 1);
    EndsDiffer(analysisDir + id, "-skymap-galaxies.txt", alertsDir + id, ".json", 1);
    EndsDiffer(analysisDir + id, "-skymap-galaxies.txt", alertsDir + id, "-skymap.fits", 1);
    EndsDiffer(analysisDir + id, "-skymap-galaxies.txt", alertsDir + id, "-90percent.moc.fits", 1);
    EndsDiffer(alertsDir + id, ".json", alertsDir + id, "-skymap.fits", 1);
    EndsDiffer(alertsDir + id, ".json", alertsDir + id, "-90percent.moc.fits", 1);
    EndsDiffer(alertsDir + id, "-skymap.fits", alertsDir + id, "-90percent.moc.fits", 6);
    p
  }

  /** Two names whose fixed suffixes differ at the same distance from the end
      are different names, whatever precedes the suffixes. */
  lemma EndsDiffer(a: string, x: string, b: string, y: string, k: nat)
    requires 1 <= k <= |x| && k <= |y| && x[|x| - k] != y[|y| - k]
    ensures a + x != b + y
  {
    var s, t := a + x, b + y;
    assert s[|s| - k] == x[|x| - k];
    assert t[|t| - k] == y[|y| - k];
  }

  function WriteIfAbsent(files: map<string, Artifact>, path: string, a: Artifact): (r: map<string, Artifact>)
    ensures path in r && (path in files ==> r == files)
    ensures r.Keys == files.Keys + {path}
    ensures forall q :: q in files ==> r[q] == files[q]
    ensures path !in files ==> r[path] == a
  {
    if path in files then files else files[path := a]
  }

  predicate IsUpdate(alertType: string) {
    alertType == "PRELIMINARY" || alertType == "INITIAL" || alertType == "UPDATE"
  }

  /** The `event` keys every update reads, in order (router.py:704-720). */
  const EventKeys: seq<string> := ["time", "far", "significant", "instruments", "pipeline", "search", "group"]

  /** Read from `event` for a Burst event (router.py:726-727). */
  const BurstKeys: seq<string> := ["duration", "central_frequency"]

  /** Read inside `event.properties` and `event.classification` for a CBC
      event (router.py:737-745). */
  const PropertyKeys: seq<string> := ["HasNS", "HasRemnant", "HasMassGap"]
  const ClassificationKeys: seq<string> := ["BNS", "NSBH", "BBH", "Terrestrial"]

  /** The sky-map header keys read without a KeyError guard (router.py:766-768). */
  const HeaderKeys: seq<string> := ["OBJECT", "DATE-OBS", "MJD-OBS"]

  /** Every event parameter an update prints can be read from the record. */
  predicate EventReadable(record: map<string, Json>) {
    && HasObject(record, "event", EventKeys)
    && var event := record["event"].fields;
    && "group" in event
    && (event["group"] == JStr("Burst") ==> HasKeys(event, BurstKeys))
    && (event["group"] == JStr("CBC") ==>
          HasObject(event, "properties", PropertyKeys) && HasObject(event, "classification", ClassificationKeys))
  }

  /** router.py:704-754: the event parameters an update prints: the seven
      common values, then the two of a Burst event or the seven of a CBC
      event's `properties` and `classification`; or the error of the first
      lookup that raises. */
  function ReadEvent(record: map<string, Json>): (r: Result<seq<Json>, LookupError>)
    ensures r.Ok? <==> EventReadable(record)
    ensures r.Ok? ==>
              && var event := record["event"].fields;
              && |r.value| == |EventKeys| + (if event["group"] == JStr("Burst") then |BurstKeys|
                                             else if event["group"] == JStr("CBC") then |PropertyKeys| + |ClassificationKeys|
                                             else 0)
              && forall i :: 0 <= i < |EventKeys| ==> r.value[i] == event[EventKeys[i]]
    ensures "event" !in record ==> r == Err(KeyError("event"))
    ensures "event" in record && !record["event"].JObject? ==> r == Err(TypeError)
  {
    match ReadNested(record, "event", EventKeys)
    case Err(e) => Err(e)
    case Ok(common) =>
      var event := record["event"].fields;
      assert EventKeys[6] == "group";
      var group := event["group"];
      if group == JStr("Burst") then
        match ReadKeys(event, BurstKeys)
        case Err(k) => Err(KeyError(k))
        case Ok(values) => Ok(common + values)
      else if group == JStr("CBC") then
        match ReadNested(event, "properties", PropertyKeys)
        case Err(e) => Err(e)
        case Ok(properties) =>
          match ReadNested(event, "classification", ClassificationKeys)
          case Err(e) => Err(e)
          case Ok(classes) => Ok(common + properties + classes)
      else Ok(common)
  }

  /** router.py:704-768: what an update reads before it localises the sky
      map: the event parameters, then `event.pop('skymap')`, then for a
      non-empty sky map the OBJECT, DATE-OBS and MJD-OBS header values (the
      DISTMEAN and DISTSTD reads catch their KeyError). None when every read
      succeeds. */
  function UpdateReadError(alert: GwAlert): (r: Option<LookupError>)
    ensures r.None? <==>
              && EventReadable(alert.record)
              && "skymap" in alert.record["event"].fields
              && (alert.skymap.Some? ==> HasKeys(alert.header, HeaderKeys))
    ensures ReadEvent(alert.record).Err? ==> r == Some(ReadEvent(alert.record).error)
    ensures EventReadable(alert.record) && "skymap" !in alert.record["event"].fields ==>
              r == Some(KeyError("skymap"))
    ensures alert.skymap.None? && EventReadable(alert.record) ==>
              (r.None? <==> "skymap" in alert.record["event"].fields)
  {
    match ReadEvent(alert.record)
    case Err(e) => Some(e)
    case Ok(_) =>
      if "skymap" !in alert.record["event"].fields then Some(KeyError("skymap"))
      else if alert.skymap.None? then None
      else
        match ReadKeys(alert.header, HeaderKeys)
        case Err(k) => Some(KeyError(k))
        case Ok(_) => None
  }

  /** The five files of one event. */
  function EventFiles(p: EventPaths): set<string> {
    {p.fields, p.galaxies, p.json, p.skymap, p.moc}
  }

  /** The outcome of one gravitational-wave alert: the origin (or the
      exception raised), the per-event files, and what `survey_fields.dat`
      holds afterwards. */
  datatype Step = Step(result: Result<Origin, GwError>, files: map<string, Artifact>,
                       survey: Option<seq<Priority.Field>>)

  /** router.py:812-831 once the sky map is read: the sorted sky map and its
      MOC are each saved only when their file is absent. */
  function SaveMaps(p: EventPaths, files: map<string, Artifact>, loc: Skymap.Localization): (r: map<string, Artifact>)
    ensures forall q :: q in files ==> q in r && r[q] == files[q]
    ensures r.Keys == files.Keys + {p.skymap, p.moc}
  {
    WriteIfAbsent(WriteIfAbsent(files, p.skymap, SkymapFile(loc.sorted)), p.moc, MocFile(loc.moc))
  }

  /** Saving the record, the sorted map and the MOC leaves the ranked
      lists as present or absent as they were. */
  lemma SaveMapsKeepsRankings(p: EventPaths, files: map<string, Artifact>, record: Artifact,
                              loc: Skymap.Localization)
    requires p.fields != p.json && p.fields != p.skymap && p.fields != p.moc
    requires p.galaxies != p.json && p.galaxies != p.skymap && p.galaxies != p.moc
    ensures var f := SaveMaps(p, WriteIfAbsent(files, p.json, record), loc);
            && (p.fields in f <==> p.fields in files)
            && (p.galaxies in f <==> p.galaxies in files)
  {
  }

  /** router.py:834-846: a missing field list runs field_generator, which may
      write `survey_fields.dat`, and then ranks the survey fields by the sky
      map, which raises when there is none. */
  function RankFields(s: Setup, p: EventPaths, id: string, files: map<string, Artifact>,
                      survey: Option<seq<Priority.Field>>, table: Option<seq<Skymap.Cell>>, origin: Origin): (r: Step)
    ensures forall q :: q in files ==> q in r.files && r.files[q] == files[q]
    ensures r.files.Keys <= files.Keys + {p.fields}
    ensures r.result.Ok? ==> p.fields in r.files
    ensures r.result.Err? ==> r.files == files
    ensures table.Some? && r.result.Err? ==> r.result == Err(NoFieldSize)
    ensures r.survey == survey
            || (Priority.FieldList(s.geometry).Ok? && r.survey == Some(Priority.FieldList(s.geometry).value))
    ensures survey.Some? && !s.regenerate ==> r.survey == survey
  {
    if p.fields in files then Step(Ok(origin), files, survey)
    else
      var c := Priority.FieldGeneration(s.geometry, survey, s.regenerate);
      if c.result.Err? then Step(Err(NoFieldSize), files, c.saved)
      else if table.None? then Step(Err(SkymapUnbound), files, c.saved)
      else
        var ranked := Priority.SortFieldSkymap(c.result.value, s.crossmatch(table.value), id);
        Step(Ok(origin), files[p.fields := FieldRanking(ranked)], c.saved)
  }

  /** router.py:848-861: a missing galaxy list runs field_generator again,
      cuts the catalog, and then ranks the galaxies by the sky map, which
      raises when there is none. */
  function RankGalaxies(s: Setup, p: EventPaths, files: map<string, Artifact>,
                        survey: Option<seq<Priority.Field>>, table: Option<seq<Skymap.Cell>>, origin: Origin): (r: Step)
    ensures forall q :: q in files ==> q in r.files && r.files[q] == files[q]
    ensures r.files.Keys <= files.Keys + {p.galaxies}
    ensures r.result.Ok? ==> p.galaxies in r.files
    ensures r.result.Err? ==> r.files == files
    ensures table.Some? && r.result.Err? ==> r.result == Err(NoFieldSize)
    ensures r.survey == survey
            || (Priority.FieldList(s.geometry).Ok? && r.survey == Some(Priority.FieldList(s.geometry).value))
    ensures survey.Some? && !s.regenerate ==> r.survey == survey
  {
    if p.galaxies in files then Step(Ok(origin), files, survey)
    else
      var c := Priority.FieldGeneration(s.geometry, survey, s.regenerate);
      if c.result.Err? then Step(Err(NoFieldSize), files, c.saved)
      else if table.None? then Step(Err(SkymapUnbound), files, c.saved)
      else
        var targets := Priority.GenerateTargets(s.catalog, s.sunRa);
        var ranked := Priority.SortGalaxySkymap(targets, s.crossmatch(table.value));
        Step(Ok(origin), files[p.galaxies := GalaxyRanking(ranked)], c.saved)
  }

  /** router.py:834-861: the field list, then the galaxy list. */
  function Rank(s: Setup, p: EventPaths, id: string, files: map<string, Artifact>,
                survey: Option<seq<Priority.Field>>, table: Option<seq<Skymap.Cell>>, origin: Origin): (r: Step)
    ensures forall q :: q in files ==> q in r.files && r.files[q] == files[q]
    ensures r.files.Keys <= files.Keys + {p.fields, p.galaxies}
    ensures table.Some? ==> r.result.Ok? || r.result == Err(NoFieldSize)
    ensures r.survey == survey
            || (Priority.FieldList(s.geometry).Ok? && r.survey == Some(Priority.FieldList(s.geometry).value))
    ensures survey.Some? && !s.regenerate ==> r.survey == survey
  {
    var f := RankFields(s, p, id, files, survey, table, origin);
    if f.result.Err? then f else RankGalaxies(s, p, f.files, f.survey, table, origin)
  }

  /** The table the rankings read. Writing the MOC sorts `skymap[:i]`, a
      view of the sky map, by UNIQ in place (router.py:824-827), so the
      sky map's first i rows are reordered; with the MOC already on disk the
      table stays in density order. */
  function RankingTable(p: EventPaths, files: map<string, Artifact>, loc: Skymap.Localization): seq<Skymap.Cell>
    requires |loc.region| <= |loc.sorted|
  {
    if p.moc in files then loc.sorted else Skymap.SortPrefixByUniq(loc.sorted, |loc.region|)
  }

  /** The ranking table holds the sorted sky map's rows; when the MOC is
      written now, its first rows carry the MOC's UNIQ values in the MOC's
      order and the rest stay in density order, and otherwise it is the
      sorted map itself. */
  lemma RankingTableRows(p: EventPaths, files: map<string, Artifact>, cells: seq<Skymap.Cell>)
    requires Skymap.Localize(cells).Ok?
    ensures var loc := Skymap.Localize(cells).value;
            var t := RankingTable(p, files, loc);
            var n := |loc.region|;
            && |t| == |cells| && multiset(t) == multiset(cells)
            && t[n..] == loc.sorted[n..]
            && (p.moc in files ==> t == loc.sorted)
            && (p.moc !in files ==> Skymap.UniqColumn(t[..n]) == loc.moc)
  {
    var loc := Skymap.Localize(cells).value;
    if p.moc !in files {
      Skymap.MocMatchesSortedPrefix(loc.sorted, |loc.region|);
      assert loc.sorted[..|loc.region|] == loc.region;
    }
  }

  /** router.py:696-865: a PRELIMINARY, INITIAL or UPDATE alert after its
      record is saved and its parameters read. */
  function ProcessUpdate(s: Setup, p: EventPaths, id: string, files: map<string, Artifact>,
                         survey: Option<seq<Priority.Field>>, skymap: Option<seq<Skymap.Cell>>, origin: Origin)
    : (r: Step)
    ensures forall q :: q in files ==> q in r.files && r.files[q] == files[q]
    ensures forall q :: q in r.files && q !in files ==> q in EventFiles(p)
  {
    match skymap
    case None => Rank(s, p, id, files, survey, None, origin)
    case Some(cells) =>
      match Skymap.Localize(cells)
      case Err(e) => Step(Err(BadSkymap(e)), files, survey)
      case Ok(loc) =>
        var withMap := WriteIfAbsent(files, p.skymap, SkymapFile(loc.sorted));
        Rank(s, p, id, SaveMaps(p, files, loc), survey, Some(RankingTable(p, withMap, loc)), origin)
  }

  /** router.py:620-867 on the file state. */
  function Process(s: Setup, files: map<string, Artifact>, survey: Option<seq<Priority.Field>>, alert: GwAlert)
    : Step
  {
    match OriginOf(alert.supereventId)
    case Err(e) => Step(Err(e), files, survey)
    case Ok(origin) =>
      var p := PathsFor(s.analysisDir, s.alertsDir, alert.supereventId);
      var withJson := WriteIfAbsent(files, p.json, AlertRecord(alert));
      if alert.alertType == "RETRACTION" then Step(Ok(origin), withJson - EventFiles(p), survey)
      else if IsUpdate(alert.alertType) then
        match UpdateReadError(alert)
        case Some(e) => Step(Err(BadRecord(e)), withJson, survey)
        case None => ProcessUpdate(s, p, alert.supereventId, withJson, survey, alert.skymap, origin)
      else Step(Ok(origin), withJson, survey)
  }

  /** The files of all events, kept in the alert and analysis directories,
      and the survey field cache of the analysis directory. */
  class EventStore {
    var files: map<string, Artifact>
    const setup: Setup
    const cache: Priority.FieldCache

    constructor (setup: Setup, files: map<string, Artifact>, survey: Option<seq<Priority.Field>>)
      ensures this.setup == setup && this.files == files
      ensures fresh(cache) && cache.saved == survey && cache.regenerate == setup.regenerate
    {
      this.setup := setup;
      this.files := files;
      cache := new Priority.FieldCache(survey, setup.regenerate);
    }

    /** `if not os.path.isfile(path)`: write. */
    method SaveIfAbsent(path: string, a: Artifact)
      modifies this
      ensures files == WriteIfAbsent(old(files), path, a)
    {
      if path !in files {
        files := files[path := a];
      }
    }

    /** `if os.path.isfile(path)`: `rm path`. */
    method RemoveIfPresent(path: string)
      modifies this
      ensures files == old(files) - {path}
    {
      if path in files {
        files := files - {path};
      }
    }

    /** router.py:660-691: a retraction removes each file of the event
        that exists. */
    method RemoveEventFiles(p: EventPaths)
      modifies this
      ensures files == old(files) - EventFiles(p)
    {
      RemoveIfPresent(p.fields);
      RemoveIfPresent(p.galaxies);
      RemoveIfPresent(p.json);
      RemoveIfPresent(p.skymap);
      RemoveIfPresent(p.moc);
    }

    /** process_kafka_alert for the `igwn.gwalert` topic. */
    method ProcessGwAlert(alert: GwAlert) returns (r: Result<Origin, GwError>)
      requires cache.regenerate == setup.regenerate
      modifies this, cache
      ensures Step(r, files, cache.saved) == Process(setup, old(files), old(cache.saved), alert)
    {
      var id := alert.supereventId;
      if id == [] {
        return Err(EmptyId);
      }
      var origin := if id[0] == 'M' || id[0] == 'T' then Mock else if id[0] == 'S' then Real else UnknownOrigin;
      var p := PathsFor(setup.analysisDir, setup.alertsDir, id);
      SaveIfAbsent(p.json, AlertRecord(alert));
      if alert.alertType == "RETRACTION" {
        RemoveEventFiles(p);
        return Ok(origin);
      }
      if alert.alertType == "PRELIMINARY" || alert.alertType == "INITIAL" || alert.alertType == "UPDATE" {
        var readError := UpdateReadError(alert);
        if readError.Some? {
          return Err(BadRecord(readError.value));
        }
        r := RunUpdate(p, id, alert.skymap, origin);
        return;
      }
      return Ok(origin);
    }

    /** router.py:811-830: save the sorted sky map and the MOC when absent;
        the rows are the table left for the rankings. */
    method SaveSkymap(p: EventPaths, loc: Skymap.Localization) returns (rows: seq<Skymap.Cell>)
      requires |loc.region| <= |loc.sorted|
      modifies this
      ensures files == SaveMaps(p, old(files), loc)
      ensures rows == RankingTable(p, WriteIfAbsent(old(files), p.skymap, SkymapFile(loc.sorted)), loc)
    {
      rows := loc.sorted;
      SaveIfAbsent(p.skymap, SkymapFile(loc.sorted));
      if p.moc !in files {
        files := files[p.moc := MocFile(loc.moc)];
        rows := Skymap.SortPrefixByUniq(loc.sorted, |loc.region|);
      }
    }

    /** router.py:756-865: the sky map, MOC and ranked lists of an update. */
    method RunUpdate(p: EventPaths, id: string, skymap: Option<seq<Skymap.Cell>>, origin: Origin)
      returns (r: Result<Origin, GwError>)
      requires cache.regenerate == setup.regenerate
      modifies this, cache
      ensures Step(r, files, cache.saved) == ProcessUpdate(setup, p, id, old(files), old(cache.saved), skymap, origin)
    {
      var table: Option<seq<Skymap.Cell>> := None;
      if skymap.Some? {
        var loc := Skymap.Localize(skymap.value);
        if loc.Err? {
          return Err(BadSkymap(loc.error));
        }
        var rows := SaveSkymap(p, loc.value);
        table := Some(rows);
      }
      if p.fields !in files {
        var survey := cache.FieldGenerator(setup.geometry);
        if survey.Err? {
          return Err(NoFieldSize);
        }
        if table.None? {
          return Err(SkymapUnbound);
        }
        var ranked := Priority.SortFieldSkymap(survey.value, setup.crossmatch(table.value), id);
        files := files[p.fields := FieldRanking(ranked)];
      }
      if p.galaxies !in files {
        var survey := cache.FieldGenerator(setup.geometry);
        if survey.Err? {
          return Err(NoFieldSize);
        }
        var targets := Priority.GenerateTargets(setup.catalog, setup.sunRa);
        if table.None? {
          return Err(SkymapUnbound);
        }
        var ranked := Priority.SortGalaxySkymap(targets, setup.crossmatch(table.value));
        files := files[p.galaxies := GalaxyRanking(ranked)];
      }
      return Ok(origin);
    }
  }

  // Properties of the lifecycle

  /** An alert whose id is empty raises before touching any file. */
  lemma EmptyIdTouchesNothing(s: Setup, files: map<string, Artifact>, survey: Option<seq<Priority.Field>>,
                              alert: GwAlert)
    requires alert.supereventId == []
    ensures Process(s, files, survey, alert) == Step(Err(EmptyId), files, survey)
  {
  }

  /** The raw record is saved on first delivery, whatever its type, and a
      re-delivery never rewrites it; only a retraction removes it. */
  lemma JsonWrittenOnce(s: Setup, files: map<string, Artifact>, survey: Option<seq<Priority.Field>>, alert: GwAlert)
    requires alert.supereventId != [] && alert.alertType != "RETRACTION"
    ensures var p := PathsFor(s.analysisDir, s.alertsDir, alert.supereventId);
            var after := Process(s, files, survey, alert).files;
            && p.json in after
            && after[p.json] == (if p.json in files then files[p.json] else AlertRecord(alert))
  {
  }

  /** A retraction leaves none of the event's five files and changes nothing
      else. */
  lemma RetractionRemovesAll(s: Setup, files: map<string, Artifact>, survey: Option<seq<Priority.Field>>,
                             alert: GwAlert)
    requires alert.supereventId != [] && alert.alertType == "RETRACTION"
    ensures var p := PathsFor(s.analysisDir, s.alertsDir, alert.supereventId);
            var after := Process(s, files, survey, alert);
            && (forall q :: q in EventFiles(p) ==> q !in after.files)
            && (forall q :: q !in EventFiles(p) ==> (q in after.files <==> q in files))
            && (forall q :: q in after.files ==> after.files[q] == files[q])
            && after.survey == survey
  {
  }

  /** Any other alert never removes or rewrites an event file, and the files
      it adds are among its own event's five. */
  lemma NeverOverwrites(s: Setup, files: map<string, Artifact>, survey: Option<seq<Priority.Field>>, alert: GwAlert)
    requires alert.alertType != "RETRACTION"
    ensures var p := PathsFor(s.analysisDir, s.alertsDir, alert.supereventId);
            var after := Process(s, files, survey, alert).files;
            && (forall q :: q in files ==> q in after && after[q] == files[q])
            && (forall q :: q in after && q !in files ==> q in EventFiles(p))
  {
  }

  /** `survey_fields.dat` is the one file outside the event's own that an
      alert may write: afterwards it is as it was or holds the freshly built
      field table; with FIELD_GENERATION other than 'Y' an existing one is
      never rewritten, and only update alerts touch it. */
  lemma SurveyFileWrites(s: Setup, files: map<string, Artifact>, survey: Option<seq<Priority.Field>>, alert: GwAlert)
    ensures var after := Process(s, files, survey, alert).survey;
            && (after == survey
                || (Priority.FieldList(s.geometry).Ok? && after == Some(Priority.FieldList(s.geometry).value)))
            && (survey.Some? && !s.regenerate ==> after == survey)
            && (!IsUpdate(alert.alertType) ==> after == survey)
  {
    if alert.supereventId != [] && IsUpdate(alert.alertType) && UpdateReadError(alert).None? {
      UpdateUnfolds(s, files, survey, alert);
    }
  }

  /** An alert type other than the three update types and RETRACTION writes at
      most the raw record. */
  lemma OtherTypesOnlySaveJson(s: Setup, files: map<string, Artifact>, survey: Option<seq<Priority.Field>>,
                               alert: GwAlert)
    requires alert.supereventId != [] && alert.alertType != "RETRACTION" && !IsUpdate(alert.alertType)
    ensures var p := PathsFor(s.analysisDir, s.alertsDir, alert.supereventId);
            var after := Process(s, files, survey, alert);
            after.files.Keys == files.Keys + {p.json} && after.survey == survey
  {
  }

  /** Delivering the same alert twice has the effect of delivering it once. */
  lemma ProcessIdempotent(s: Setup, files: map<string, Artifact>, survey: Option<seq<Priority.Field>>, alert: GwAlert)
    ensures var once := Process(s, files, survey, alert);
            Process(s, once.files, once.survey, alert) == once
  {
    if alert.supereventId != [] {
      var id := alert.supereventId;
      var origin := OriginOf(id).value;
      var once := Process(s, files, survey, alert);
      var p := PathsFor(s.analysisDir, s.alertsDir, id);
      var withJson := WriteIfAbsent(files, p.json, AlertRecord(alert));
      if alert.alertType == "RETRACTION" {
        var w := WriteIfAbsent(once.files, p.json, AlertRecord(alert));
        assert w - EventFiles(p) == once.files;
      } else if IsUpdate(alert.alertType) {
        assert WriteIfAbsent(once.files, p.json, AlertRecord(alert)) == once.files;
        if UpdateReadError(alert).None? {
          match alert.skymap
          case None =>
            RankIdempotent(s, p, id, withJson, survey, None, None, origin);
          case Some(cells) =>
            if Skymap.Localize(cells).Ok? {
              var loc := Skymap.Localize(cells).value;
              var first := RankingTable(p, WriteIfAbsent(withJson, p.skymap, SkymapFile(loc.sorted)), loc);
              var again := RankingTable(p, WriteIfAbsent(once.files, p.skymap, SkymapFile(loc.sorted)), loc);
              RankIdempotent(s, p, id, SaveMaps(p, withJson, loc), survey, Some(first), Some(again), origin);
              assert SaveMaps(p, once.files, loc) == once.files;
            }
        }
      }
    }
  }

  /** Ranking again right after ranking changes nothing, even against a
      reordered table: the lists that were written are present, and a
      repeated field_generator call returns what the first one did. */
  lemma RankIdempotent(s: Setup, p: EventPaths, id: string, files: map<string, Artifact>,
                       survey: Option<seq<Priority.Field>>, table: Option<seq<Skymap.Cell>>,
                       again: Option<seq<Skymap.Cell>>, origin: Origin)
    requires p.fields != p.galaxies
    requires table.Some? <==> again.Some?
    ensures var once := Rank(s, p, id, files, survey, table, origin);
            Rank(s, p, id, once.files, once.survey, again, origin) == once
  {
    var f := RankFields(s, p, id, files, survey, table, origin);
    Priority.FieldGenerationRepeats(s.geometry, survey, s.regenerate);
    if f.result.Ok? {
      Priority.FieldGenerationRepeats(s.geometry, f.survey, s.regenerate);
    }
  }

  /** An update alert whose record reads cleanly and whose sky map is usable
      saves its record, the sorted map and the MOC, then ranks against the
      sky map: in density order when the MOC was already on disk, with its
      90 percent rows sorted by UNIQ when it was written now. */
  lemma ProcessLocalized(s: Setup, files: map<string, Artifact>, survey: Option<seq<Priority.Field>>, alert: GwAlert)
    requires alert.supereventId != [] && IsUpdate(alert.alertType) && UpdateReadError(alert).None?
    requires alert.skymap.Some? && Skymap.Localize(alert.skymap.value).Ok?
    ensures var id := alert.supereventId;
            var p := PathsFor(s.analysisDir, s.alertsDir, id);
            var loc := Skymap.Localize(alert.skymap.value).value;
            var f := SaveMaps(p, WriteIfAbsent(files, p.json, AlertRecord(alert)), loc);
            && Process(s, files, survey, alert)
               == Rank(s, p, id, f, survey, Some(RankingTable(p, files, loc)), OriginOf(id).value)
  {
    var id := alert.supereventId;
    var p := PathsFor(s.analysisDir, s.alertsDir, id);
    var loc := Skymap.Localize(alert.skymap.value).value;
    var withJson := WriteIfAbsent(files, p.json, AlertRecord(alert));
    var withMap := WriteIfAbsent(withJson, p.skymap, SkymapFile(loc.sorted));
    UpdateUnfolds(s, files, survey, alert);
    assert p.moc in withMap <==> p.moc in files;
    assert RankingTable(p, withMap, loc) == RankingTable(p, files, loc);
  }

  /** An update alert whose record reads cleanly goes on to the update steps
      with its record saved. */
  lemma UpdateUnfolds(s: Setup, files: map<string, Artifact>, survey: Option<seq<Priority.Field>>, alert: GwAlert)
    requires alert.supereventId != [] && IsUpdate(alert.alertType) && UpdateReadError(alert).None?
    ensures var id := alert.supereventId;
            var p := PathsFor(s.analysisDir, s.alertsDir, id);
            Process(s, files, survey, alert)
            == ProcessUpdate(s, p, id, WriteIfAbsent(files, p.json, AlertRecord(alert)), survey, alert.skymap,
                             OriginOf(id).value)
  {
    assert alert.alertType != "RETRACTION";
  }

  /** After an update alert with a usable sky map, the MOC file holds the UNIQ
      values, in ascending order, of the sorted map cut before the cell at
      which the running total reaches 90 percent: below 90 percent, and the
      next cell would reach it. */
  lemma MocHoldsRegion(s: Setup, files: map<string, Artifact>, survey: Option<seq<Priority.Field>>, alert: GwAlert)
    requires alert.supereventId != [] && IsUpdate(alert.alertType) && UpdateReadError(alert).None?
    requires alert.skymap.Some? && Skymap.Localize(alert.skymap.value).Ok?
    requires PathsFor(s.analysisDir, s.alertsDir, alert.supereventId).moc !in files
    ensures var p := PathsFor(s.analysisDir, s.alertsDir, alert.supereventId);
            var sorted := Skymap.SortedByDensity(alert.skymap.value);
            var after := Process(s, files, survey, alert);
            && Skymap.ValidCells(sorted)
            && var region := Skymap.Region(sorted, Skymap.Confidence);
            && (after.result.Ok? || after.result == Err(NoFieldSize))
            && p.moc in after.files && after.files[p.moc] == MocFile(Skymap.MocUniqs(region))
            && var u := after.files[p.moc].uniqs;
            && (forall a, b :: 0 <= a < b < |u| ==> u[a] <= u[b])
            && multiset(u) == multiset(Skymap.UniqColumn(region))
            && Skymap.PrefixMass(sorted, |region|) < Skymap.Confidence
            && (|region| < |sorted| ==> Skymap.PrefixMass(sorted, |region|) + Skymap.Mass(sorted[|region|]) >= Skymap.Confidence)
  {
    var id := alert.supereventId;
    var p := PathsFor(s.analysisDir, s.alertsDir, id);
    var loc := Skymap.Localize(alert.skymap.value).value;
    var withJson := WriteIfAbsent(files, p.json, AlertRecord(alert));
    var f := SaveMaps(p, withJson, loc);
    assert f[p.moc] == MocFile(loc.moc);
    ProcessLocalized(s, files, survey, alert);
    var after := Rank(s, p, id, f, survey, Some(RankingTable(p, files, loc)), OriginOf(id).value);
    assert after.files[p.moc] == MocFile(loc.moc);
    Skymap.MocIsSortedRegion(loc.region);
  }

  /** After an update alert with a readable record, a usable sky map, and a
      field table field_generator can build or read: the alert succeeds, the
      field list is sort_field_skymap of that table and the galaxy list
      sort_galaxy_skymap of the catalog cut, both crossmatched with the sky
      map as the MOC step left it, and `survey_fields.dat` holds the table
      whenever a list had to be made. */
  lemma RankingsPublished(s: Setup, files: map<string, Artifact>, survey: Option<seq<Priority.Field>>, alert: GwAlert)
    requires alert.supereventId != [] && IsUpdate(alert.alertType) && UpdateReadError(alert).None?
    requires alert.skymap.Some? && Skymap.Localize(alert.skymap.value).Ok?
    requires Priority.FieldGeneration(s.geometry, survey, s.regenerate).result.Ok?
    ensures var id := alert.supereventId;
            var p := PathsFor(s.analysisDir, s.alertsDir, id);
            var density := s.crossmatch(RankingTable(p, files, Skymap.Localize(alert.skymap.value).value));
            var table := Priority.FieldGeneration(s.geometry, survey, s.regenerate).result.value;
            var after := Process(s, files, survey, alert);
            && after.result.Ok?
            && p.fields in after.files && p.galaxies in after.files
            && (p.fields !in files ==>
                  after.files[p.fields] == FieldRanking(Priority.SortFieldSkymap(table, density, id)))
            && (p.galaxies !in files ==>
                  after.files[p.galaxies]
                  == GalaxyRanking(Priority.SortGalaxySkymap(Priority.GenerateTargets(s.catalog, s.sunRa), density)))
            && (p.fields !in files || p.galaxies !in files ==> after.survey == Some(table))
  {
    var id := alert.supereventId;
    var p := PathsFor(s.analysisDir, s.alertsDir, id);
    var loc := Skymap.Localize(alert.skymap.value).value;
    var withJson := WriteIfAbsent(files, p.json, AlertRecord(alert));
    var f := SaveMaps(p, withJson, loc);
    var c := Priority.FieldGeneration(s.geometry, survey, s.regenerate);
    assert c.saved == Some(c.result.value);
    SaveMapsKeepsRankings(p, files, AlertRecord(alert), loc);
    ProcessLocalized(s, files, survey, alert);
    RankPublishes(s, p, id, f, survey, RankingTable(p, files, loc), OriginOf(id).value);
  }

  /** With a sky map and a field table field_generator can build or read,
      ranking succeeds, writes each missing list from that table, and
      leaves the table cached whenever a list had to be made. */
  lemma RankPublishes(s: Setup, p: EventPaths, id: string, files: map<string, Artifact>,
                      survey: Option<seq<Priority.Field>>, table: seq<Skymap.Cell>, origin: Origin)
    requires p.fields != p.galaxies
    requires Priority.FieldGeneration(s.geometry, survey, s.regenerate).result.Ok?
    ensures var density := s.crossmatch(table);
            var c := Priority.FieldGeneration(s.geometry, survey, s.regenerate);
            var after := Rank(s, p, id, files, survey, Some(table), origin);
            && after.result == Ok(origin)
            && p.fields in after.files && p.galaxies in after.files
            && (p.fields !in files ==>
                  after.files[p.fields] == FieldRanking(Priority.SortFieldSkymap(c.result.value, density, id)))
            && (p.galaxies !in files ==>
                  after.files[p.galaxies]
                  == GalaxyRanking(Priority.SortGalaxySkymap(Priority.GenerateTargets(s.catalog, s.sunRa), density)))
            && (p.fields !in files || p.galaxies !in files ==> after.survey == c.saved)
  {
    var c := Priority.FieldGeneration(s.geometry, survey, s.regenerate);
    Priority.FieldGenerationRepeats(s.geometry, survey, s.regenerate);
    var r1 := RankFields(s, p, id, files, survey, Some(table), origin);
    assert r1.survey == survey || r1.survey == c.saved;
    assert Priority.FieldGeneration(s.geometry, r1.survey, s.regenerate).result.Ok?;
  }

  /** With a readable record and no sky map attached, an update alert saves
      its raw record and
      raises as soon as a ranked list is missing: after field_generator has
      run, which may have written `survey_fields.dat`, or failed on its own. */
  lemma NoSkymapNeedsRankings(s: Setup, files: map<string, Artifact>, survey: Option<seq<Priority.Field>>,
                              alert: GwAlert)
    requires alert.supereventId != [] && IsUpdate(alert.alertType) && UpdateReadError(alert).None?
    requires alert.skymap.None?
    ensures var p := PathsFor(s.analysisDir, s.alertsDir, alert.supereventId);
            var c := Priority.FieldGeneration(s.geometry, survey, s.regenerate);
            var after := Process(s, files, survey, alert);
            && after.files == WriteIfAbsent(files, p.json, AlertRecord(alert))
            && (p.fields in files && p.galaxies in files ==> after.result.Ok? && after.survey == survey)
            && (p.fields !in files || p.galaxies !in files ==>
                  && after.survey == c.saved
                  && after.result == (if c.result.Err? then Err(NoFieldSize) else Err(SkymapUnbound)))
  {
    var id := alert.supereventId;
    var p := PathsFor(s.analysisDir, s.alertsDir, id);
    var withJson := WriteIfAbsent(files, p.json, AlertRecord(alert));
    UpdateUnfolds(s, files, survey, alert);
    assert Process(s, files, survey, alert) == Rank(s, p, id, withJson, survey, None, OriginOf(id).value);
    assert p.fields in withJson <==> p.fields in files;
    assert p.galaxies in withJson <==> p.galaxies in files;
  }

  /** An update whose record or sky-map header lacks a key it reads, or
      indexes into a value that is not an object, raises after saving the
      raw record: no sky map, MOC or list is written and field_generator
      does not run. */
  lemma UnreadableUpdateRaises(s: Setup, files: map<string, Artifact>, survey: Option<seq<Priority.Field>>,
                               alert: GwAlert)
    requires alert.supereventId != [] && IsUpdate(alert.alertType) && UpdateReadError(alert).Some?
    ensures var p := PathsFor(s.analysisDir, s.alertsDir, alert.supereventId);
            var after := Process(s, files, survey, alert);
            && after.result == Err(BadRecord(UpdateReadError(alert).value))
            && after.files.Keys == files.Keys + {p.json}
            && after.survey == survey
  {
  }
}
