/**
 * Request normalisation and the credential gate: what counts as an empty
 * value, the in-place removal of empty values from an option bag, and
 * the two key checks that stand in front of every signed request.
 */
module Util {
  import opened JsValues
  import opened PrettyPrint

  /**
   * `isEmptyValue`: falsy values other than `false` and `0`, strings made of
   * white space only, objects without own keys and empty arrays. The four
   * disjuncts of the source are kept in its order; the contract states,
   * kind by kind, what they amount to.
   */
  function IsEmptyValue(input: JsValue): (empty: bool)
    ensures input.Undefined? || input.Null? || input.NaN? ==> empty
    ensures input.Bool? || input.Num? ==> !empty
    ensures input.Str? ==> (empty <==> forall i :: 0 <= i < |input.s| ==> IsWhiteSpace(input.s[i]))
    ensures input.Obj? ==> (empty <==> input.props == map[])
    ensures input.Arr? ==> (empty <==> input.items == [])
    ensures input.Func? ==> empty
  {
    (!Truthy(input) && input != Bool(false) && input != Num(0))
    || (input.Str? && IsBlank(input.s))
    || (IsInstanceOfObject(input) && OwnKeyCount(input) == 0)
    || (input.Arr? && |input.items| == 0)
  }

  /** Corner cases of the definition: `false` and `0` are kept, blank strings and every function are empty. */
  lemma EmptyValueCorners()
    ensures IsEmptyValue(Str("")) && IsEmptyValue(Str(" \t\n"))
    ensures !IsEmptyValue(Str(" x ")) && !IsEmptyValue(Bool(false)) && !IsEmptyValue(Num(0))
    ensures IsEmptyValue(Func) && IsEmptyValue(Obj(map[])) && IsEmptyValue(Arr([]))
    ensures !IsEmptyValue(Arr([Undefined]))
  {
    assert Str(" x ").s[1] == 'x';
  }

  /** The option bag after `removeEmptyValue`: the keys whose values are not empty, with their values. */
  function Normalized(m: map<string, JsValue>): map<string, JsValue>
  {
    map k | k in m && !IsEmptyValue(m[k]) :: m[k]
  }

  /** What normalisation keeps and drops: every non-empty entry, unchanged, and nothing else. */
  lemma NormalizedEntries(m: map<string, JsValue>)
    ensures forall k :: k in Normalized(m) <==> k in m && !IsEmptyValue(m[k])
    ensures forall k :: k in Normalized(m) ==> Normalized(m)[k] == m[k]
    ensures Normalized(m).Keys <= m.Keys
  {
  }

  /** After normalisation no key maps to an empty value. */
  lemma NormalizedHasNoEmpty(m: map<string, JsValue>)
    ensures forall k :: k in Normalized(m) ==> !IsEmptyValue(Normalized(m)[k])
  {
  }

  /** Normalising twice is normalising once. */
  lemma NormalizedIdempotent(m: map<string, JsValue>)
    ensures Normalized(Normalized(m)) == Normalized(m)
  {
  }

  /** A JavaScript object handed around by reference; `props` are its own enumerable properties. */
  class JsObject {
    var props: map<string, JsValue>

    constructor (props0: map<string, JsValue>)
      ensures props == props0
    {
      props := props0;
    }
  }

  /** The argument of `removeEmptyValue`: an object by reference, or a primitive value. */
  datatype Arg = Ref(obj: JsObject) | Primitive(v: JsValue)

  /**
   * `removeEmptyValue`: a primitive yields a fresh `{}`; an object loses, in
   * place, every key whose value is empty, and the same object is returned.
   * The loop walks a snapshot of the keys taken before any deletion, as
   * `Object.keys(obj).forEach` does.
   */
  method RemoveEmptyValue(arg: Arg) returns (r: JsObject)
    requires arg.Primitive? ==> !IsInstanceOfObject(arg.v)
    modifies if arg.Ref? then {arg.obj} else {}
    ensures arg.Ref? ==> r == arg.obj && r.props == Normalized(old(arg.obj.props))
    ensures arg.Primitive? ==> fresh(r) && r.props == map[]
  {
    match arg
    case Primitive(_) =>
      r := new JsObject(map[]);
    case Ref(o) =>
      ghost var original := o.props;
      var keys := o.props.Keys;
      while keys != {}
        invariant keys <= original.Keys
        invariant forall k :: k in o.props <==> k in original && (k in keys || !IsEmptyValue(original[k]))
        invariant forall k :: k in o.props ==> o.props[k] == original[k]
        decreases keys
      {
        var key :| key in keys;
        if IsEmptyValue(o.props[key]) {
          o.props := o.props - {key};
        }
        keys := keys - {key};
      }
      assert o.props.Keys == Normalized(original).Keys;
      r := o;
  }

  /** Two passes of `removeEmptyValue` over the same object leave what one pass leaves. */
  method RemoveEmptyValueTwice(o: JsObject)
    modifies o
    ensures o.props == Normalized(old(o.props))
  {
    var once := RemoveEmptyValue(Ref(o));
    var twice := RemoveEmptyValue(Ref(o));
    NormalizedIdempotent(old(o.props));
  }

  /** The outcome of a credential check: whether it passed and the diagnostic it printed. */
  datatype Verdict = Verdict(passed: bool, printed: seq<Line>)

  const KeyAndSecretMissing: string :=
    "API Key or Secret is not set, please set " + "BINANCE_API_KEY" + " and " + "BINANCE_API_SECRET"

  const KeyMissing: string := "API Key is not set, please set BINANCE_API_KEY"

  /** `sub` occurs in `s` at position `i`. */
  predicate OccursAt(s: string, sub: string, i: int)
  {
    0 <= i <= |s| - |sub| && s[i..i + |sub|] == sub
  }

  /** `sub` occurs in `s`. */
  ghost predicate Mentions(s: string, sub: string)
  {
    exists i :: OccursAt(s, sub, i)
  }

  /**
   * The key-and-secret diagnostic names the spot variables whichever module
   * prints it; it never names the futures variables.
   */
  lemma DiagnosticNamesSpotVariables()
    ensures Mentions(KeyAndSecretMissing, "BINANCE_API_KEY")
    ensures Mentions(KeyAndSecretMissing, "BINANCE_API_SECRET")
    ensures !Mentions(KeyAndSecretMissing, "BINANCE_FUTURES_API_KEY")
    ensures !Mentions(KeyAndSecretMissing, "BINANCE_FUTURES_API_SECRET")
  {
    var lead := "API Key or Secret is not set, please set ";
    assert KeyAndSecretMissing == lead + "BINANCE_API_KEY" + " and " + "BINANCE_API_SECRET";
    assert OccursAt(KeyAndSecretMissing, "BINANCE_API_KEY", 41);
    assert OccursAt(KeyAndSecretMissing, "BINANCE_API_SECRET", 61);
    NoCapitalF();
    assert "BINANCE_FUTURES_API_KEY"[8] == 'F';
    MissingCharacter(KeyAndSecretMissing, "BINANCE_FUTURES_API_KEY", 8);
    assert "BINANCE_FUTURES_API_SECRET"[8] == 'F';
    MissingCharacter(KeyAndSecretMissing, "BINANCE_FUTURES_API_SECRET", 8);
  }

  lemma NoCapitalF()
    ensures 'F' !in KeyAndSecretMissing
  {
    var lead := "API Key or Secret is not set, please set ";
    assert 'F' !in lead;
    assert KeyAndSecretMissing == lead + "BINANCE_API_KEY" + " and " + "BINANCE_API_SECRET";
  }

  /** A text lacking one of the characters of `sub` does not mention `sub`. */
  lemma MissingCharacter(s: string, sub: string, j: nat)
    requires j < |sub| && sub[j] !in s
    ensures !Mentions(s, sub)
  {
    forall i | 0 <= i <= |s| - |sub|
      ensures !OccursAt(s, sub, i)
    {
      assert s[i..i + |sub|][j] == s[i + j] && s[i + j] in s;
    }
  }

  /** The diagnostic a failed key-and-secret check prints. */
  const GateDiagnostic: seq<Line> := PrintError(Str(KeyAndSecretMissing), Undefined)

  /** `checkKeyAndSecret`: passes iff both values are truthy; prints exactly one diagnostic iff it fails. */
  function CheckKeyAndSecret(apiKey: JsValue, apiSecret: JsValue): (v: Verdict)
    ensures v.passed <==> Truthy(apiKey) && Truthy(apiSecret)
    ensures v.passed ==> v.printed == []
    ensures !v.passed ==> |v.printed| == 1 && v.printed == GateDiagnostic
  {
    var passed := Truthy(apiKey) && Truthy(apiSecret);
    if passed then Verdict(true, [])
    else Verdict(false, PrintError(Str(KeyAndSecretMissing), Undefined))
  }

  /** `checkAPIKey`: passes iff the key is truthy; prints exactly one diagnostic iff it fails. */
  function CheckApiKey(apiKey: JsValue): (v: Verdict)
    ensures v.passed <==> Truthy(apiKey)
    ensures v.passed ==> v.printed == []
    ensures !v.passed ==> v.printed == [Line([Text(Str(KeyMissing)), Text(Str(""))])]
  {
    if Truthy(apiKey) then Verdict(true, [])
    else Verdict(false, PrintError(Str(KeyMissing), Undefined))
  }
}
