/** `FEC_Admin_Settings`: the `fec_settings` sanitiser and the defaults the two
    settings fields show. `sanitize_text_field` comes from the library record. */
module AdminSettings {
  import opened Text
  import opened Foreign

  /** A submitted value: a string, an array of strings, or null. */
  datatype Value = Str(s: string) | Arr(items: seq<string>) | Null

  const FrequencyKey := "scan_frequency"
  const ProvidersKey := "providers_enabled"

  /** `isset($input[$key])` */
  predicate IsSet(input: map<string, Value>, key: string) {
    key in input && !input[key].Null?
  }

  /** `sanitize_text_field` on any value: an array sanitises to "". */
  function SanitizeValue(lib: Lib, v: Value): string {
    if v.Str? then lib.sanitizeText(v.s) else ""
  }

  /** `sanitize_settings`: only the frequency, when set, and the provider list,
      when it is an array, each element sanitised in place. */
  function Sanitize(lib: Lib, input: map<string, Value>): (out: map<string, Value>)
    ensures forall k :: k in out ==> k == FrequencyKey || k == ProvidersKey
    ensures FrequencyKey in out <==> IsSet(input, FrequencyKey)
    ensures ProvidersKey in out <==> ProvidersKey in input && input[ProvidersKey].Arr?
    ensures FrequencyKey in out ==> out[FrequencyKey] == Str(SanitizeValue(lib, input[FrequencyKey]))
    ensures ProvidersKey in out ==>
      out[ProvidersKey].Arr? && |out[ProvidersKey].items| == |input[ProvidersKey].items| &&
      forall j :: 0 <= j < |out[ProvidersKey].items| ==>
        out[ProvidersKey].items[j] == lib.sanitizeText(input[ProvidersKey].items[j])
  {
    var f: map<string, Value> := if IsSet(input, FrequencyKey) then map[FrequencyKey := Str(SanitizeValue(lib, input[FrequencyKey]))] else map[];
    if ProvidersKey in input && input[ProvidersKey].Arr? then
      var xs := input[ProvidersKey].items;
      f[ProvidersKey := Arr(seq(|xs|, j requires 0 <= j < |xs| => lib.sanitizeText(xs[j])))]
    else f
  }

  /** The frequency the settings field selects: the stored one, else 'hourly'. A
      stored array matches no option. */
  function FrequencyShown(settings: Option<map<string, Value>>): string {
    if settings.Some? && IsSet(settings.value, FrequencyKey) then
      (if settings.value[FrequencyKey].Str? then settings.value[FrequencyKey].s else "")
    else "hourly"
  }

  /** The providers the field treats as enabled: the stored list, else gmail,
      outlook and yahoo. A stored value that is not an array is read as an empty
      list; PHP 8's `in_array` would throw on it instead. */
  function ProvidersShown(settings: Option<map<string, Value>>): seq<string> {
    if settings.Some? && IsSet(settings.value, ProvidersKey) then
      (if settings.value[ProvidersKey].Arr? then settings.value[ProvidersKey].items else [])
    else ["gmail", "outlook", "yahoo"]
  }

  const AvailableProviders: seq<string> := ["gmail", "outlook", "yahoo", "other"]

  /** The checkbox of each available provider, in order: ticked iff it is enabled. */
  function Checked(settings: Option<map<string, Value>>): (r: seq<bool>)
    ensures |r| == |AvailableProviders|
    ensures forall j :: 0 <= j < |r| ==> (r[j] <==> AvailableProviders[j] in ProvidersShown(settings))
  {
    seq(|AvailableProviders|, j requires 0 <= j < |AvailableProviders| => AvailableProviders[j] in ProvidersShown(settings))
  }

  /** Before anything is saved, the form selects 'hourly' and ticks every provider
      but "Other IMAP". */
  lemma UnsavedDefaults()
    ensures FrequencyShown(None) == "hourly"
    ensures Checked(None) == [true, true, true, false]
  {
    var c := Checked(None);
    assert "other" !in ["gmail", "outlook", "yahoo"];
  }

  /** A saved form reads back as it was sanitised: the frequency submitted (or
      'hourly' when none was), and exactly the sanitised providers ticked. */
  lemma SavedReadsBack(lib: Lib, input: map<string, Value>)
    ensures var saved := Some(Sanitize(lib, input));
      FrequencyShown(saved) == (if IsSet(input, FrequencyKey) then SanitizeValue(lib, input[FrequencyKey]) else "hourly") &&
      ProvidersShown(saved) == (if ProvidersKey in input && input[ProvidersKey].Arr? then Sanitize(lib, input)[ProvidersKey].items
                                else ["gmail", "outlook", "yahoo"])
  {
  }

  /** Sanitising what the sanitiser produced changes nothing when the text
      sanitiser leaves its own output, and the empty text, alone. */
  lemma SanitizeIdempotent(lib: Lib, input: map<string, Value>)
    requires forall s :: lib.sanitizeText(lib.sanitizeText(s)) == lib.sanitizeText(s)
    requires lib.sanitizeText("") == ""
    ensures Sanitize(lib, Sanitize(lib, input)) == Sanitize(lib, input)
  {
    var once := Sanitize(lib, input);
    var twice := Sanitize(lib, once);
    if IsSet(input, FrequencyKey) {
      assert twice[FrequencyKey] == once[FrequencyKey];
    }
    if ProvidersKey in once {
      assert twice[ProvidersKey].items == once[ProvidersKey].items;
    }
    assert twice.Keys == once.Keys;
  }
}
