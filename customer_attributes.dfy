/**
  `fetchAndCacheCustomerAttributes` (server.js:40-53): query the customer-attribute
  definitions and fold the `{id, name}` list into a map from id to name, the last element
  with a given id winning. The module-level `customerAttributeMap` starts empty and is
  reassigned only when the whole fetch succeeds; in server.js it is never read.
 */
module CustomerAttributes {
  import opened Wrappers
  import opened JsValues
  import opened IkasQuery

  /** One element of `listCustomerAttribute`: its `id` and whatever its `name` holds. */
  datatype CustomerAttribute = CustomerAttribute(id: string, name: Json)

  /**
    The `reduce` of server.js:45-48 with `{}` as the initial accumulator: the elements write
    `map[attr.id] = attr.name` from first to last, so the map after the whole list is the map
    after all but the last element, updated by the last one.
   */
  function Fold(attrs: seq<CustomerAttribute>): map<string, Json>
  {
    if attrs == [] then map[]
    else
      var last := attrs[|attrs| - 1];
      Fold(attrs[..|attrs| - 1])[last.id := last.name]
  }

  /** The ids the list carries. */
  function Ids(attrs: seq<CustomerAttribute>): set<string>
  {
    set a | a in attrs :: a.id
  }

  /** No element after position `i` carries the id of element `i`. */
  predicate IsLastWithId(attrs: seq<CustomerAttribute>, i: int)
  {
    0 <= i < |attrs| && forall j :: i < j < |attrs| ==> attrs[j].id != attrs[i].id
  }

  /** The folded map has a key for every id in the list, and no other key. */
  lemma {:induction false} FoldKeys(attrs: seq<CustomerAttribute>)
    ensures Fold(attrs).Keys == Ids(attrs)
  {
    if attrs != [] {
      var init := attrs[..|attrs| - 1];
      FoldKeys(init);
      assert attrs == init + [attrs[|attrs| - 1]];
      assert Ids(attrs) == Ids(init) + {attrs[|attrs| - 1].id};
    }
  }

  /** Each id maps to the name of the last element that carries it. */
  lemma {:induction false} FoldLastWins(attrs: seq<CustomerAttribute>, i: int)
    requires IsLastWithId(attrs, i)
    ensures attrs[i].id in Fold(attrs) && Fold(attrs)[attrs[i].id] == attrs[i].name
  {
    var n := |attrs| - 1;
    if i < n {
      var init := attrs[..n];
      assert IsLastWithId(init, i);
      FoldLastWins(init, i);
      assert attrs[n].id != attrs[i].id;
    }
  }

  /** Every listed id has a last element carrying it. */
  lemma {:induction false} LastWithIdExists(attrs: seq<CustomerAttribute>, id: string)
    requires id in Ids(attrs)
    ensures exists i :: IsLastWithId(attrs, i) && attrs[i].id == id
  {
    var n := |attrs| - 1;
    if attrs[n].id == id {
      assert IsLastWithId(attrs, n);
    } else {
      var init := attrs[..n];
      assert attrs == init + [attrs[n]];
      assert id in Ids(init);
      LastWithIdExists(init, id);
      var i :| IsLastWithId(init, i) && init[i].id == id;
      assert IsLastWithId(attrs, i);
    }
  }

  /**
    The two properties pin the fold down: a map whose keys are the listed ids and whose
    value for each id is the last name given for it is the folded map.
   */
  lemma FoldCharacterised(attrs: seq<CustomerAttribute>, m: map<string, Json>)
    requires m.Keys == Ids(attrs)
    requires forall i | IsLastWithId(attrs, i) :: m[attrs[i].id] == attrs[i].name
    ensures m == Fold(attrs)
  {
    FoldKeys(attrs);
    forall id | id in m
      ensures m[id] == Fold(attrs)[id]
    {
      LastWithIdExists(attrs, id);
      var i :| IsLastWithId(attrs, i) && attrs[i].id == id;
      FoldLastWins(attrs, i);
    }
  }

  /**
    The `reduce` run as the loop it is: the accumulator map is rebound once per element, in
    list order. The result holds exactly the listed ids, each with its last name.
   */
  method BuildAttributeMap(attrs: seq<CustomerAttribute>) returns (m: map<string, Json>)
    ensures m == Fold(attrs)
    ensures m.Keys == Ids(attrs)
    ensures forall i | IsLastWithId(attrs, i) :: m[attrs[i].id] == attrs[i].name
  {
    m := map[];
    for k := 0 to |attrs|
      invariant m == Fold(attrs[..k])
    {
      assert attrs[..k + 1][..k] == attrs[..k];
      m := m[attrs[k].id := attrs[k].name];
    }
    assert attrs[..|attrs|] == attrs;
    FoldKeys(attrs);
    forall i | IsLastWithId(attrs, i)
      ensures m[attrs[i].id] == attrs[i].name
    {
      FoldLastWins(attrs, i);
    }
  }

  /** An element the fold can use: an object with a string `id` and a `name`. */
  function DecodeAttribute(item: Json): Option<CustomerAttribute>
  {
    if item.JObj? && "id" in item.fields && item.fields["id"].JStr? && "name" in item.fields
    then Some(CustomerAttribute(item.fields["id"].s, item.fields["name"]))
    else None
  }

  /** Every element decoded, in order, or None when one of them cannot be. */
  function DecodeAll(items: seq<Json>): (r: Option<seq<CustomerAttribute>>)
    ensures r.Some? <==> forall i | 0 <= i < |items| :: DecodeAttribute(items[i]).Some?
    ensures r.Some? ==> |r.value| == |items|
    ensures r.Some? ==> forall i | 0 <= i < |items| :: DecodeAttribute(items[i]) == Some(r.value[i])
  {
    if items == [] then Some([])
    else
      match (DecodeAttribute(items[0]), DecodeAll(items[1..]))
      case (Some(a), Some(rest)) =>
        assert forall i | 1 <= i < |items| :: items[i] == items[1..][i - 1];
        Some([a] + rest)
      case _ =>
        assert forall i | 1 <= i < |items| :: items[i] == items[1..][i - 1];
        None
  }

  /**
    `data.data.listCustomerAttribute` for the outcome of the attribute query, as the list
    the fold consumes; None when reading it throws (the query threw, `data` is missing or
    null, or the list is not an array) or an element is not a usable `{id, name}` object.
   */
  function ListedAttributes(outcome: Result<UpstreamBody, Error>): (r: Option<seq<CustomerAttribute>>)
    // the list is read exactly when the query succeeded, `data` is an object, its
    // `listCustomerAttribute` is an array and every element of it is usable
    ensures r.Some? <==>
      && outcome.Ok?
      && outcome.value.data.Some?
      && outcome.value.data.value.JObj?
      && "listCustomerAttribute" in outcome.value.data.value.fields
      && outcome.value.data.value.fields["listCustomerAttribute"].JArr?
      && DecodeAll(outcome.value.data.value.fields["listCustomerAttribute"].items).Some?
    // and it is that array, decoded element by element
    ensures r.Some? ==> r == DecodeAll(outcome.value.data.value.fields["listCustomerAttribute"].items)
  {
    match outcome
    case Err(_) => None
    case Ok(body) =>
      match Member(body.data, "listCustomerAttribute")
      case Ok(Some(JArr(items))) => DecodeAll(items)
      case _ => None
  }

  /** The attribute-definition query of server.js:43. */
  const AttributesQuery := "{ listCustomerAttribute { id, name } }"

  /** The module-level `customerAttributeMap` (server.js:15). */
  class AttributeMap {
    var names: map<string, Json>

    constructor ()
      ensures names == map[]
    {
      names := map[];
    }

    /** The assignment of server.js:45, reached only when nothing before it threw. */
    method Refresh(listed: Option<seq<CustomerAttribute>>)
      modifies this
      ensures names == if listed.Some? then Fold(listed.value) else old(names)
    {
      if listed.Some? {
        names := BuildAttributeMap(listed.value);
      }
    }

    /**
      `fetchAndCacheCustomerAttributes()`: run the attribute query through the token cache
      with empty variables, then fold the list into the map; any failure is caught and
      leaves the map as it was.
     */
    method FetchAndCache(tokens: TokenCache, now: int, reply: ExchangeReply, upstream: Result<UpstreamBody, Error>)
      returns (calls: seq<Call>)
      modifies this, tokens
      ensures
        var run := RunQuery(tokens.credentials, old(tokens.State()), now, reply, AttributesQuery, JObj(map[]), upstream);
        && tokens.State() == run.state
        && calls == run.calls
        && names == if ListedAttributes(run.result).Some? then Fold(ListedAttributes(run.result).value) else old(names)
    {
      var result;
      result, calls := tokens.ExecuteQuery(now, reply, AttributesQuery, JObj(map[]), upstream);
      Refresh(ListedAttributes(result));
    }
  }
}
