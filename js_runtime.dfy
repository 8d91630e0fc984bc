/** Stand-ins for the small pieces of the browser and JavaScript runtime that the
    site's scripts lean on: `undefined`/`null` as an Option, `String.prototype.includes`,
    `URLSearchParams.get`, Web Storage, body attributes and the navigator's
    device hints. */
module JsRuntime {

  datatype Option<+T> = None | Some(value: T)

  /** The property names every plain object inherits from `Object.prototype`.
      Looking one of them up on an object literal yields a function (or, for
      `__proto__`, the prototype object) instead of `undefined`. */
  const ObjectPrototypeMembers: set<string> :=
    {"constructor", "__proto__", "__defineGetter__", "__defineSetter__",
     "__lookupGetter__", "__lookupSetter__", "hasOwnProperty", "isPrototypeOf",
     "propertyIsEnumerable", "toLocaleString", "toString", "valueOf"}

  // ---------------------------------------------------------------------------
  // String.prototype.includes

  predicate OccursAt(s: string, part: string, i: int) {
    0 <= i && i + |part| <= |s| && s[i..i + |part|] == part
  }

  lemma OccursShift(s: string, part: string)
    requires |s| > 0
    ensures forall i :: 0 <= i ==> (OccursAt(s[1..], part, i) <==> OccursAt(s, part, i + 1))
  {
    forall i | 0 <= i ensures OccursAt(s[1..], part, i) <==> OccursAt(s, part, i + 1) {
      if 0 <= i && i + |part| <= |s| - 1 {
        assert s[1..][i..i + |part|] == s[i + 1..i + 1 + |part|];
      }
    }
  }

  /** `s.includes(part)`: `part` occurs somewhere in `s` as a contiguous block. */
  function Includes(s: string, part: string): (b: bool)
    ensures b <==> exists i :: OccursAt(s, part, i)
    decreases |s|
  {
    if |part| > |s| then
      false
    else if s[..|part|] == part then
      assert OccursAt(s, part, 0);
      true
    else
      OccursShift(s, part);
      assert !OccursAt(s, part, 0);
      assert forall i :: OccursAt(s, part, i) ==> i == 0 || OccursAt(s[1..], part, i - 1);
      Includes(s[1..], part)
  }

  // ---------------------------------------------------------------------------
  // URLSearchParams: an already decoded query string, in order

  type QueryParams = seq<(string, string)>

  /** `r` is what `URLSearchParams.get(name)` answers: the value of the FIRST
      pair called `name`, or `null` (None) when there is none. */
  ghost predicate IsFirstValue(q: QueryParams, name: string, r: Option<string>) {
    && (r.None? <==> forall i :: 0 <= i < |q| ==> q[i].0 != name)
    && (r.Some? ==>
          exists i :: 0 <= i < |q| && q[i] == (name, r.value) &&
                      forall j :: 0 <= j < i ==> q[j].0 != name)
  }

  function QueryGet(q: QueryParams, name: string): (r: Option<string>)
    ensures IsFirstValue(q, name, r)
  {
    if q == [] then
      None
    else if q[0].0 == name then
      assert q[0] == (name, q[0].1);
      Some(q[0].1)
    else
      var r := QueryGet(q[1..], name);
      assert forall i :: 1 <= i < |q| ==> q[i] == q[1..][i - 1];
      assert r.Some? ==> exists i :: 1 <= i < |q| && q[i] == (name, r.value) &&
                                     forall j :: 0 <= j < i ==> q[j].0 != name;
      r
  }

  /** `URLSearchParams.has(name)`. */
  function QueryHas(q: QueryParams, name: string): (b: bool)
    ensures b <==> exists i :: 0 <= i < |q| && q[i].0 == name
  {
    QueryGet(q, name).Some?
  }

  // ---------------------------------------------------------------------------
  // Web Storage (sessionStorage / localStorage), one key-value map per store

  class WebStorage<V> {
    var items: map<string, V>

    constructor ()
      ensures items == map[]
    {
      items := map[];
    }

    /** `setItem(key, value)`: overwrites that one key. */
    method SetItem(key: string, value: V)
      modifies this
      ensures items == old(items)[key := value]
    {
      items := items[key := value];
    }

    /** `removeItem(key)`: drops that one key, if present. */
    method RemoveItem(key: string)
      modifies this
      ensures items == old(items) - {key}
    {
      items := items - {key};
    }
  }

  /** The attributes `document.body.setAttribute` writes. */
  class DocumentBody {
    var attributes: map<string, string>

    constructor ()
      ensures attributes == map[]
    {
      attributes := map[];
    }

    method SetAttribute(name: string, value: string)
      modifies this
      ensures attributes == old(attributes)[name := value]
    {
      attributes := attributes[name := value];
    }
  }

  // ---------------------------------------------------------------------------
  // navigator device hints

  datatype Connection = Connection(effectiveType: Option<string>, downlink: Option<real>)

  /** `navigator.deviceMemory`, `navigator.hardwareConcurrency` and
      `navigator.connection`; None where the browser does not supply one. */
  datatype Navigator = Navigator(
    deviceMemory: Option<real>,
    hardwareConcurrency: Option<int>,
    connection: Option<Connection>)

  /** `navigator.deviceMemory || 4`: an absent or zero reading becomes 4. */
  function DeviceMemoryOrDefault(nav: Navigator): (m: real)
    ensures nav.deviceMemory.None? || nav.deviceMemory.value == 0.0 ==> m == 4.0
    ensures nav.deviceMemory.Some? && nav.deviceMemory.value != 0.0 ==> m == nav.deviceMemory.value
    ensures m != 0.0
  {
    if nav.deviceMemory.Some? && nav.deviceMemory.value != 0.0 then nav.deviceMemory.value else 4.0
  }

  /** `navigator.hardwareConcurrency || 4`: an absent or zero reading becomes 4. */
  function ConcurrencyOrDefault(nav: Navigator): (c: int)
    ensures nav.hardwareConcurrency.None? || nav.hardwareConcurrency.value == 0 ==> c == 4
    ensures nav.hardwareConcurrency.Some? && nav.hardwareConcurrency.value != 0 ==> c == nav.hardwareConcurrency.value
    ensures c != 0
  {
    if nav.hardwareConcurrency.Some? && nav.hardwareConcurrency.value != 0 then nav.hardwareConcurrency.value else 4
  }
}
