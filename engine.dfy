/**
 * The dictionary-translation engine (`translateDictionary` in app.js).
 *
 * The provider call is an oracle from a request to an optional text, and the
 * concurrent completion of the calls is an arbitrary order in which every key
 * settles exactly once; the engine is then a sequential program over that order.
 */
module Engine {
  import opened Wrappers

  /** A language tag, or the provider's "auto" sentinel on the source side. */
  type Lang = string

  /** One call to the translation provider. */
  datatype Request = Request(text: string, from: Lang, to: Lang)

  /** The translation provider: the translated text, or None when the call fails. */
  type Translator = Request -> Option<string>

  predicate Distinct<T(==)>(s: seq<T>) {
    forall i, j :: 0 <= i < j < |s| ==> s[i] != s[j]
  }

  /**
   * A JavaScript object used as a dictionary: its own keys in insertion order
   * and the value stored under each.
   */
  datatype Dictionary<V> = Dictionary(keys: seq<string>, values: map<string, V>)
  {
    ghost predicate Valid() {
      && Distinct(keys)
      && (forall k :: k in values <==> k in keys)
    }
  }

  /** `{}` */
  function Empty<V>(): (d: Dictionary<V>)
    ensures d.Valid() && d.keys == []
  {
    Dictionary([], map[])
  }

  /** `obj[k]`: the value stored under k, or undefined when k is not a key of obj. */
  function Get<V>(d: Dictionary<V>, k: string): Option<V>
  {
    if k in d.values then Some(d.values[k]) else None
  }

  /**
   * `obj[k] = v`: a key seen for the first time is appended to the key order,
   * a key already present keeps its place and only its value changes.
   */
  function Put<V>(d: Dictionary<V>, k: string, v: V): (r: Dictionary<V>)
    requires d.Valid()
    ensures r.Valid()
    ensures Get(r, k) == Some(v)
    ensures forall k' :: k' != k ==> Get(r, k') == Get(d, k')
    ensures r.keys == if k in d.keys then d.keys else d.keys + [k]
  {
    if k in d.values then Dictionary(d.keys, d.values[k := v])
    else Dictionary(d.keys + [k], d.values[k := v])
  }

  /** The call issued for key k: its value, with both tags passed through unchanged. */
  function RequestFor(dict: Dictionary<string>, k: string, from: Lang, to: Lang): Request
    requires k in dict.values
  {
    Request(dict.values[k], from, to)
  }

  /** Every key is settled exactly once, in some order. */
  ghost predicate IsCompletionOrder(order: seq<string>, keys: seq<string>) {
    && Distinct(order)
    && (forall k :: k in order <==> k in keys)
  }

  /**
   * The reference result of the engine: the keys of dict in their order, each
   * mapped to the outcome of its own call (None where that call failed).
   * It mentions no completion order.
   */
  function Translated(dict: Dictionary<string>, from: Lang, to: Lang, translate: Translator)
    : (r: Dictionary<Option<string>>)
    requires dict.Valid()
    ensures r.Valid()
  {
    Dictionary(dict.keys, map k | k in dict.values :: translate(RequestFor(dict, k, from, to)))
  }

  /**
   * The keys of `order` whose call succeeds, in that order: the insertion order
   * of the scratch object when the calls settle in `order`.
   */
  function Succeeded(dict: Dictionary<string>, from: Lang, to: Lang, translate: Translator, order: seq<string>)
    : (r: seq<string>)
    requires forall k :: k in order ==> k in dict.values
    ensures forall k :: k in r <==> k in order && translate(RequestFor(dict, k, from, to)).Some?
    ensures Distinct(order) ==> Distinct(r)
  {
    if order == [] then []
    else
      var last := order[|order| - 1];
      var rest := Succeeded(dict, from, to, translate, order[..|order| - 1]);
      assert forall k :: k in order[..|order| - 1] ==> k in order;
      if translate(RequestFor(dict, last, from, to)).Some? then rest + [last] else rest
  }

  /**
   * The request of each key of `order` whose call fails, in that order: one
   * reported warning per failed call.
   */
  function Failed(dict: Dictionary<string>, from: Lang, to: Lang, translate: Translator, order: seq<string>)
    : (r: seq<Request>)
    requires forall k :: k in order ==> k in dict.values
    ensures forall w :: w in r ==> translate(w).None?
    ensures forall k :: k in order && translate(RequestFor(dict, k, from, to)).None? ==>
              RequestFor(dict, k, from, to) in r
  {
    if order == [] then []
    else
      var last := order[|order| - 1];
      var rest := Failed(dict, from, to, translate, order[..|order| - 1]);
      assert forall k :: k in order[..|order| - 1] ==> k in order;
      if translate(RequestFor(dict, last, from, to)).Some? then rest else rest + [RequestFor(dict, last, from, to)]
  }

  /** Every settled call either writes its key or reports one warning, never both. */
  lemma {:induction false} SettledOnce(dict: Dictionary<string>, from: Lang, to: Lang, translate: Translator,
                                       order: seq<string>)
    requires forall k :: k in order ==> k in dict.values
    ensures |Failed(dict, from, to, translate, order)| + |Succeeded(dict, from, to, translate, order)| == |order|
  {
    if order != [] {
      assert forall k :: k in order[..|order| - 1] ==> k in order;
      SettledOnce(dict, from, to, translate, order[..|order| - 1]);
    }
  }

  /**
   * The fan-out: one pending call per key, issued in key order, each on that
   * key's value with both tags passed through unchanged.
   */
  method Dispatch(dict: Dictionary<string>, from: Lang, to: Lang)
    returns (pending: map<string, Request>, calls: seq<Request>)
    requires dict.Valid()
    ensures forall k :: k in pending <==> k in dict.values
    ensures forall k :: k in pending ==> pending[k] == RequestFor(dict, k, from, to)
    ensures |calls| == |dict.keys|
    ensures forall i :: 0 <= i < |calls| ==> calls[i] == RequestFor(dict, dict.keys[i], from, to)
  {
    pending := map[];
    calls := [];
    for i := 0 to |dict.keys|
      invariant |calls| == i
      invariant forall n :: 0 <= n < i ==> calls[n] == RequestFor(dict, dict.keys[n], from, to)
      invariant forall k :: k in pending <==> k in dict.keys[..i]
      invariant forall k :: k in pending ==> k in dict.values && pending[k] == RequestFor(dict, k, from, to)
    {
      var key := dict.keys[i];
      var request := Request(dict.values[key], from, to);
      pending := pending[key := request];
      calls := calls + [request];
    }
    assert dict.keys[..|dict.keys|] == dict.keys;
  }

  /**
   * The calls settle in `completion`: a success is recorded in the scratch
   * object under its own key, a failure is only reported and leaves the key
   * unset.
   */
  method Settle(dict: Dictionary<string>, from: Lang, to: Lang, translate: Translator,
                pending: map<string, Request>, completion: seq<string>)
    returns (result: Dictionary<string>, warnings: seq<Request>)
    requires dict.Valid()
    requires IsCompletionOrder(completion, dict.keys)
    requires forall k :: k in pending <==> k in dict.values
    requires forall k :: k in pending ==> pending[k] == RequestFor(dict, k, from, to)
    ensures result.Valid()
    ensures result.keys == Succeeded(dict, from, to, translate, completion)
    ensures forall k :: k in dict.values ==> Get(result, k) == translate(RequestFor(dict, k, from, to))
    ensures warnings == Failed(dict, from, to, translate, completion)
  {
    result := Empty();
    warnings := [];
    for j := 0 to |completion|
      invariant result.Valid()
      invariant result.keys == Succeeded(dict, from, to, translate, completion[..j])
      invariant forall k :: k in result.values ==>
                  k in dict.values && translate(RequestFor(dict, k, from, to)) == Some(result.values[k])
      invariant warnings == Failed(dict, from, to, translate, completion[..j])
    {
      var key := completion[j];
      assert completion[..j + 1] == completion[..j] + [key];
      assert completion[..j + 1][..j] == completion[..j];
      assert key !in completion[..j];
      var outcome := translate(pending[key]);
      match outcome {
        case Some(text) => result := Put(result, key, text);
        case None => warnings := warnings + [pending[key]];
      }
    }
    assert completion[..|completion|] == completion;
  }

  /** The output object: the keys of dict in their original order, each given its scratch value. */
  method Rebuild(dict: Dictionary<string>, ghost from: Lang, ghost to: Lang, ghost translate: Translator,
                 result: Dictionary<string>)
    returns (out: Dictionary<Option<string>>)
    requires dict.Valid()
    requires forall k :: k in dict.values ==> Get(result, k) == translate(RequestFor(dict, k, from, to))
    ensures out == Translated(dict, from, to, translate)
  {
    out := Empty();
    for i := 0 to |dict.keys|
      invariant out.Valid()
      invariant out.keys == dict.keys[..i]
      invariant forall k :: k in out.values ==>
                  k in dict.values && out.values[k] == translate(RequestFor(dict, k, from, to))
    {
      var key := dict.keys[i];
      assert dict.keys[..i + 1] == dict.keys[..i] + [key];
      assert key !in dict.keys[..i];
      out := Put(out, key, Get(result, key));
    }
    assert dict.keys[..|dict.keys|] == dict.keys;
  }

  /**
   * translateDictionary(dict, from, to), with the calls settling in `completion`.
   * `calls` lists the provider calls in the order they are issued, `scratchKeys`
   * the keys of the scratch object in insertion order, and `warnings` the
   * requests whose failure was reported. The output does not depend on
   * `completion`.
   */
  method TranslateDictionary(dict: Dictionary<string>, from: Lang, to: Lang, translate: Translator,
                             completion: seq<string>)
    returns (out: Dictionary<Option<string>>, calls: seq<Request>, scratchKeys: seq<string>,
             warnings: seq<Request>)
    requires dict.Valid()
    requires IsCompletionOrder(completion, dict.keys)
    ensures out == Translated(dict, from, to, translate)
    ensures |calls| == |dict.keys|
    ensures forall i :: 0 <= i < |calls| ==> calls[i] == RequestFor(dict, dict.keys[i], from, to)
    ensures scratchKeys == Succeeded(dict, from, to, translate, completion)
    ensures warnings == Failed(dict, from, to, translate, completion)
  {
    var pending;
    pending, calls := Dispatch(dict, from, to);
    var result;
    result, warnings := Settle(dict, from, to, translate, pending, completion);
    scratchKeys := result.keys;
    out := Rebuild(dict, from, to, translate, result);
  }

  /**
   * The output has exactly the input's keys: a key maps to Some(text) when its
   * call succeeded with text, to None (undefined) when its call failed, and a key
   * that is not in the input is not in the output.
   */
  lemma TranslatedOutcome(dict: Dictionary<string>, from: Lang, to: Lang, translate: Translator, k: string)
    requires dict.Valid()
    ensures Translated(dict, from, to, translate).keys == dict.keys
    ensures k !in dict.keys ==> Get(Translated(dict, from, to, translate), k) == None
    ensures k in dict.keys ==>
              Get(Translated(dict, from, to, translate), k) == Some(translate(RequestFor(dict, k, from, to)))
  {
  }

  /**
   * One failing call changes nothing else: when `translate'` agrees with
   * `translate` on every request but `bad`, which fails, every key keeps its
   * place, the keys whose request is `bad` are kept with None, and every other
   * key keeps its translation.
   */
  lemma FailureIsolation(dict: Dictionary<string>, from: Lang, to: Lang,
                         translate: Translator, translate': Translator, bad: Request)
    requires dict.Valid()
    requires translate'(bad) == None
    requires forall q :: q != bad ==> translate'(q) == translate(q)
    ensures Translated(dict, from, to, translate').keys == Translated(dict, from, to, translate).keys
    ensures forall k :: k in dict.values && RequestFor(dict, k, from, to) != bad ==>
              Translated(dict, from, to, translate').values[k] == Translated(dict, from, to, translate).values[k]
    ensures forall k :: k in dict.values && RequestFor(dict, k, from, to) == bad ==>
              Translated(dict, from, to, translate').values[k] == None
  {
  }

  /** Every call failing still yields every key, each with None. */
  lemma AllFail(dict: Dictionary<string>, from: Lang, to: Lang, translate: Translator)
    requires dict.Valid()
    requires forall q :: translate(q) == None
    ensures Translated(dict, from, to, translate) == Dictionary(dict.keys, map k | k in dict.values :: None)
  {
  }

  /** An empty dictionary translates to an empty dictionary. */
  lemma TranslatedEmpty(from: Lang, to: Lang, translate: Translator)
    ensures Translated(Empty(), from, to, translate) == Empty()
  {
  }

  /**
   * {"Title": "Hello World", "Content": "A simple test."} from "en" to "fr",
   * where only "Hello World" translates: Title gets its translation, Content
   * stays with undefined, in the order Title, Content.
   */
  lemma TitleContentScenario(translate: Translator)
    requires translate(Request("Hello World", "en", "fr")) == Some("Bonjour le monde")
    requires translate(Request("A simple test.", "en", "fr")) == None
    ensures Translated(Dictionary(["Title", "Content"], map["Title" := "Hello World", "Content" := "A simple test."]),
                       "en", "fr", translate)
            == Dictionary(["Title", "Content"], map["Title" := Some("Bonjour le monde"), "Content" := None])
  {
  }
}
