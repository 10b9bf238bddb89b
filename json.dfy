/**
 * The JSON shim of antismash/common/json.py: how `dumps` composes the option
 * mask it hands to the orjson encoder, the default conversion hook the
 * encoder calls on objects it cannot encode itself, and the view objects
 * (`JSONBase`, `JSONDomain`, `JSONOrf`) that present selected attributes as an
 * ordered mapping.
 */
module Json {
  import opened Wrappers

  /** The exceptions the core raises. */
  datatype PyError =
    | TypeError                   // `raise TypeError` in the conversion hook
    | AttributeError(name: string) // `getattr` of an attribute the object does not have
    | AssertionError              // failed `assert` in `add_domain`

  // ---------------------------------------------------------------------------
  // Encoder options
  // ---------------------------------------------------------------------------

  /**
   * One bit of an orjson option mask: the three the shim sets, and any other
   * bit a caller passes through, named by its position.
   */
  datatype OptFlag = NonStrKeys | SortKeys | Indent2 | Other(bit: nat)

  /** An option mask, as the set of its bits; `|=` is set union. */
  type OptionMask = set<OptFlag>

  /**
   * The mask `_convert_std_to_orson` returns. The contract characterises it
   * completely: the caller's bits, the non-string-keys bit, and the sort-keys
   * and indent bits when asked for, and nothing else.
   */
  function ComposedOption(sortKeys: bool := false, option: OptionMask := {}, indent: bool := true): (r: OptionMask)
    ensures NonStrKeys in r
    ensures option <= r
    ensures SortKeys in r <==> sortKeys || SortKeys in option
    ensures Indent2 in r <==> indent || Indent2 in option
    ensures r - option <= {NonStrKeys, SortKeys, Indent2}
  {
    option + {NonStrKeys} + (if sortKeys then {SortKeys} else {}) + (if indent then {Indent2} else {})
  }

  /** `_convert_std_to_orson`: ORs the bits into the caller's mask one by one. */
  method ConvertStdToOrjson(sortKeys: bool := false, option: OptionMask := {}, indent: bool := true)
    returns (r: OptionMask)
    ensures r == ComposedOption(sortKeys, option, indent)
  {
    r := option;
    r := r + {NonStrKeys};
    if sortKeys {
      r := r + {SortKeys};
    }
    if indent {
      r := r + {Indent2};
    }
  }

  /** Composing again with the same switches changes nothing. */
  lemma ComposedOptionIdempotent(sortKeys: bool, option: OptionMask, indent: bool)
    ensures ComposedOption(sortKeys, ComposedOption(sortKeys, option, indent), indent)
         == ComposedOption(sortKeys, option, indent)
  {
  }

  /** With its own defaults, `_convert_std_to_orson` asks for indentation. */
  lemma ComposedOptionDefaults()
    ensures ComposedOption() == {NonStrKeys, Indent2}
  {
  }

  /** With the defaults of `dumps` (no indent, no sorting, empty mask) only the non-string-keys bit is set. */
  lemma DumpsDefaultOption()
    ensures ComposedOption(false, {}, false) == {NonStrKeys}
  {
  }

  // ---------------------------------------------------------------------------
  // The default conversion hook
  // ---------------------------------------------------------------------------

  /**
   * What `_base_convertor` can find out about an object it is given:
   * `seqText` is `Some(str(obj))` when the object is a biological `Seq`,
   * `toJson` is `Some(obj.to_json())` when it has a `to_json` attribute and
   * `dunderJson` is `Some(obj.__json__())` when it has `__json__`.
   */
  datatype PyObject<V> = PyObject(seqText: Option<string>, toJson: Option<V>, dunderJson: Option<V>)

  /** What the hook returns: the text of a sequence, or what a conversion method returned. */
  datatype Converted<V> = Text(text: string) | Plain(value: V)

  /** The hook's type: an object in, a plain value or an exception out. */
  type Hook<!V> = PyObject<V> -> Result<Converted<V>, PyError>

  /**
   * The conversions the hook can make of an object, in the order it tries
   * them: a candidate is present exactly when the object offers that
   * conversion, and only a sequence yields text.
   */
  function Candidates<V>(obj: PyObject<V>): (r: seq<Option<Converted<V>>>)
    ensures |r| == 3
    ensures r[0].Some? <==> obj.seqText.Some?
    ensures r[1].Some? <==> obj.toJson.Some?
    ensures r[2].Some? <==> obj.dunderJson.Some?
    ensures forall i :: 0 <= i < 3 && r[i].Some? ==> (r[i].value.Text? <==> i == 0)
    ensures r[0].Some? ==> r[0].value == Text(obj.seqText.value)
    ensures r[1].Some? ==> r[1].value.value == obj.toJson.value
    ensures r[2].Some? ==> r[2].value.value == obj.dunderJson.value
  {
    [ if obj.seqText.Some? then Some(Text(obj.seqText.value)) else None,
      if obj.toJson.Some? then Some(Plain(obj.toJson.value)) else None,
      if obj.dunderJson.Some? then Some(Plain(obj.dunderJson.value)) else None ]
  }

  /** First match wins: the first candidate present, if any. */
  function FirstMatch<X>(cs: seq<Option<X>>): (r: Option<X>)
    ensures r.Some? <==> exists i :: 0 <= i < |cs| && cs[i].Some?
    ensures r.Some? ==> exists i :: 0 <= i < |cs| && cs[i] == r && forall j :: 0 <= j < i ==> cs[j].None?
  {
    if cs == [] then None
    else if cs[0].Some? then cs[0]
    else
      var r := FirstMatch(cs[1..]);
      assert forall i :: 0 <= i < |cs| - 1 ==> cs[1..][i] == cs[i + 1];
      r
  }

  /** `_base_convertor`. */
  function BaseConvertor<V>(obj: PyObject<V>): (r: Result<Converted<V>, PyError>)
    ensures obj.seqText.Some? ==> r == Success(Text(obj.seqText.value))
    ensures obj.seqText.None? && obj.toJson.Some? ==> r == Success(Plain(obj.toJson.value))
    ensures obj.seqText.None? && obj.toJson.None? && obj.dunderJson.Some? ==> r == Success(Plain(obj.dunderJson.value))
    ensures r.Failure? <==> obj.seqText.None? && obj.toJson.None? && obj.dunderJson.None?
    ensures r.Failure? ==> r.error == TypeError
  {
    if obj.seqText.Some? then Success(Text(obj.seqText.value))
    else if obj.toJson.Some? then Success(Plain(obj.toJson.value))
    else if obj.dunderJson.Some? then Success(Plain(obj.dunderJson.value))
    else Failure(TypeError)
  }

  /** The hook is the first-match-wins search over its candidates, failing with TypeError when none applies. */
  lemma BaseConvertorIsFirstMatch<V>(obj: PyObject<V>)
    ensures BaseConvertor(obj) == match FirstMatch(Candidates(obj))
                                  case Some(c) => Success(c)
                                  case None => Failure(TypeError)
  {
    var cs := Candidates(obj);
    assert cs[1..][1..] == [cs[2]];
    assert cs[1..][1..][1..] == [];
  }

  /** The encoder's type: the object, the hook and the mask in; text or the exception it raised out. */
  type Encoder<!T, !V> = (T, Hook<V>, OptionMask) -> Result<string, PyError>

  /**
   * `dumps`: composes the option mask with its own defaults (indent off) and
   * hands the object, the hook and the mask to the encoder, which is a
   * parameter here; whatever the encoder raises (a `TypeError` from the hook,
   * say) reaches the caller unchanged.
   */
  method Dumps<T, V>(obj: T, encode: Encoder<T, V>, hook: Hook<V> := BaseConvertor,
                     indent: bool := false, sortKeys: bool := false, option: OptionMask := {})
    returns (r: Result<string, PyError>)
    ensures r == encode(obj, hook, ComposedOption(sortKeys, option, indent))
  {
    var composed := ConvertStdToOrjson(indent := indent, sortKeys := sortKeys, option := option);
    r := encode(obj, hook, composed);
  }

  /** A plain `dumps(obj)`: the default hook and a mask with only the non-string-keys bit. */
  method PlainDumps<T, V>(obj: T, encode: Encoder<T, V>) returns (r: Result<string, PyError>)
    ensures r == encode(obj, BaseConvertor, {NonStrKeys})
  {
    r := Dumps(obj, encode);
    DumpsDefaultOption();
  }

  // ---------------------------------------------------------------------------
  // View objects
  // ---------------------------------------------------------------------------

  /** The attribute values the views hold. */
  datatype Attr =
    | Str(s: string)
    | Int(i: int)
    | Pairs(pairs: seq<(string, string)>)
    | Views(views: seq<JsonBase>)

  /** The class an object was built as. */
  datatype ViewClass = BaseView | DomainView | OrfView

  /** What a domain feature supplies: its name and coordinates. */
  datatype DomainFeature = DomainFeature(name: string, start: int, end: int)

  /** What a CDS feature supplies: its translation and `get_name()`. */
  datatype CdsFeature = CdsFeature(translation: string, name: string)

  /** The keys `JSONDomain` declares, in order. */
  const DomainKeys: seq<string> :=
    ["type", "start", "end", "predictions", "napdoslink", "blastlink", "sequence", "dna_sequence"]

  /** The keys `JSONOrf` declares, in order. */
  const OrfKeys: seq<string> := ["id", "sequence", "domains"]

  /**
   * An instance of `JSONBase` or of one of its two subclasses: the declared
   * key list `_keys`, and the instance attributes as a map from name to value.
   */
  class JsonBase {
    const cls: ViewClass
    const keys: seq<string>
    var attrs: map<string, Attr>

    /** What the constructors establish and `AddDomain` keeps. */
    predicate Valid()
      reads this
    {
      && (cls == DomainView ==> keys == DomainKeys && attrs.Keys == set k | k in DomainKeys)
      && (cls == OrfView ==> keys == OrfKeys && attrs.Keys == set k | k in OrfKeys)
      && (cls == OrfView ==> "domains" in attrs && attrs["domains"].Views?)
      && (cls == OrfView ==> forall d :: d in attrs["domains"].views ==> d.cls == DomainView)
    }

    /** Every declared key names an attribute. */
    predicate KeysBound()
      reads this
    {
      forall i :: 0 <= i < |keys| ==> keys[i] in attrs
    }

    /** `JSONBase.__init__`: the key list, and no attributes yet. */
    constructor (keys: seq<string>)
      ensures cls == BaseView && this.keys == keys && attrs == map[]
      ensures Valid()
    {
      cls := BaseView;
      this.keys := keys;
      attrs := map[];
    }

    /** `JSONDomain.__init__`. */
    constructor Domain(domain: DomainFeature, predictions: seq<(string, string)>, napdosLink: string,
                       blastLink: string, sequence: string, dna: string)
      ensures cls == DomainView && keys == DomainKeys
      ensures attrs == map["type" := Str(domain.name), "start" := Int(domain.start), "end" := Int(domain.end),
                           "predictions" := Pairs(predictions), "napdoslink" := Str(napdosLink),
                           "blastlink" := Str(blastLink), "sequence" := Str(sequence), "dna_sequence" := Str(dna)]
      ensures Valid() && KeysBound() && Len() == 8
    {
      cls := DomainView;
      keys := DomainKeys;
      attrs := map["type" := Str(domain.name), "start" := Int(domain.start), "end" := Int(domain.end),
                   "predictions" := Pairs(predictions), "napdoslink" := Str(napdosLink),
                   "blastlink" := Str(blastLink), "sequence" := Str(sequence), "dna_sequence" := Str(dna)];
    }

    /** `JSONOrf.__init__`: no domains yet. */
    constructor Orf(feature: CdsFeature)
      ensures cls == OrfView && keys == OrfKeys
      ensures attrs == map["sequence" := Str(feature.translation), "id" := Str(feature.name), "domains" := Views([])]
      ensures Valid() && KeysBound() && Len() == 3
    {
      cls := OrfView;
      keys := OrfKeys;
      attrs := map["sequence" := Str(feature.translation), "id" := Str(feature.name), "domains" := Views([])];
    }

    /** `__getitem__`, which is `getattr`: the attribute of that name, or AttributeError. */
    function GetItem(key: string): (r: Result<Attr, PyError>)
      reads this
      ensures r.Success? <==> key in attrs
      ensures r.Success? ==> r.value == attrs[key]
      ensures r.Failure? ==> r.error == AttributeError(key)
    {
      if key in attrs then Success(attrs[key]) else Failure(AttributeError(key))
    }

    /** `__len__`: the number of declared keys, whatever attributes exist. */
    function Len(): (n: nat)
      reads this
      ensures n == |keys|
    {
      |keys|
    }

    /**
     * `items()`: one pair per declared key, in declaration order, each with
     * the attribute of that name; the first key without an attribute raises
     * AttributeError.
     */
    method Items() returns (r: Result<seq<(string, Attr)>, PyError>)
      ensures r.Success? <==> KeysBound()
      ensures r.Success? ==> |r.value| == Len()
      ensures r.Success? ==> forall i :: 0 <= i < |keys| ==> r.value[i] == (keys[i], attrs[keys[i]])
      ensures r.Failure? ==> exists j :: 0 <= j < |keys| && keys[j] !in attrs && r.error == AttributeError(keys[j])
                                        && forall i :: 0 <= i < j ==> keys[i] in attrs
    {
      var out: seq<(string, Attr)> := [];
      var i := 0;
      while i < |keys|
        invariant 0 <= i <= |keys| && |out| == i
        invariant forall k :: 0 <= k < i ==> keys[k] in attrs && out[k] == (keys[k], attrs[keys[k]])
      {
        var v := GetItem(keys[i]);
        if v.Failure? {
          return Failure(v.error);
        }
        out := out + [(keys[i], v.value)];
        i := i + 1;
      }
      return Success(out);
    }

    /** `values()`: the attribute of each declared key, in declaration order. */
    method Values() returns (r: Result<seq<Attr>, PyError>)
      ensures r.Success? <==> KeysBound()
      ensures r.Success? ==> |r.value| == Len()
      ensures r.Success? ==> forall i :: 0 <= i < |keys| ==> r.value[i] == attrs[keys[i]]
      ensures r.Failure? ==> exists j :: 0 <= j < |keys| && keys[j] !in attrs && r.error == AttributeError(keys[j])
                                        && forall i :: 0 <= i < j ==> keys[i] in attrs
    {
      var out: seq<Attr> := [];
      var i := 0;
      while i < |keys|
        invariant 0 <= i <= |keys| && |out| == i
        invariant forall k :: 0 <= k < i ==> keys[k] in attrs && out[k] == attrs[keys[k]]
      {
        var v := GetItem(keys[i]);
        if v.Failure? {
          return Failure(v.error);
        }
        out := out + [v.value];
        i := i + 1;
      }
      return Success(out);
    }

    /** The domains of an ORF view. */
    function Domains(): seq<JsonBase>
      reads this
      requires Valid() && cls == OrfView
    {
      attrs["domains"].views
    }

    /**
     * `JSONOrf.add_domain`: appends a domain view to `domains`; anything else
     * fails the assertion and changes nothing.
     */
    method AddDomain(domain: JsonBase) returns (err: Option<PyError>)
      requires Valid() && cls == OrfView
      modifies this
      ensures Valid()
      ensures err.None? <==> domain.cls == DomainView
      ensures err.None? ==> attrs == old(attrs)["domains" := Views(old(Domains()) + [domain])]
      ensures err.None? ==> Domains() == old(Domains()) + [domain]
      ensures err.Some? ==> err.value == AssertionError && attrs == old(attrs)
    {
      if domain.cls != DomainView {
        return Some(AssertionError);
      }
      attrs := attrs["domains" := Views(attrs["domains"].views + [domain])];
      return None;
    }
  }

  /** `items()` of a freshly built domain view: its eight fields, in declaration order. */
  method DomainItems(domain: DomainFeature, predictions: seq<(string, string)>, napdosLink: string,
                     blastLink: string, sequence: string, dna: string)
    returns (r: Result<seq<(string, Attr)>, PyError>)
    ensures r == Success([("type", Str(domain.name)), ("start", Int(domain.start)), ("end", Int(domain.end)),
                          ("predictions", Pairs(predictions)), ("napdoslink", Str(napdosLink)),
                          ("blastlink", Str(blastLink)), ("sequence", Str(sequence)), ("dna_sequence", Str(dna))])
  {
    var view := new JsonBase.Domain(domain, predictions, napdosLink, blastLink, sequence, dna);
    r := view.Items();
    assert forall i :: 0 <= i < 8 ==> r.value[i] == (DomainKeys[i], view.attrs[DomainKeys[i]]);
    assert r.value == [("type", Str(domain.name)), ("start", Int(domain.start)), ("end", Int(domain.end)),
                       ("predictions", Pairs(predictions)), ("napdoslink", Str(napdosLink)),
                       ("blastlink", Str(blastLink)), ("sequence", Str(sequence)), ("dna_sequence", Str(dna))];
  }

  /** `items()` of a freshly built ORF view: id, sequence and no domains, in that order. */
  method OrfItems(feature: CdsFeature) returns (r: Result<seq<(string, Attr)>, PyError>)
    ensures r == Success([("id", Str(feature.name)), ("sequence", Str(feature.translation)), ("domains", Views([]))])
  {
    var view := new JsonBase.Orf(feature);
    r := view.Items();
    assert forall i :: 0 <= i < 3 ==> r.value[i] == (OrfKeys[i], view.attrs[OrfKeys[i]]);
    assert r.value == [("id", Str(feature.name)), ("sequence", Str(feature.translation)), ("domains", Views([]))];
  }
}
