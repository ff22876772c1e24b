/** Translation of a GraphQL filter input into the query object that the
    `sift` library compiles into a predicate (schema.js, `filterToSift` and
    `operatorsToSift`). */
module SiftQuery {
  import opened Wrappers
  import opened Js

  /** The value of one operator of `StringQueryOperatorInput`: a string
      (`eq`, `ne`, `regex`, `glob`), a list of nullable strings (`in`, `nin`)
      or an explicit `null`. */
  datatype Operand = Text(text: string) | Texts(items: seq<Option<string>>) | Null

  /** The query object handed to `sift`: field name to `$`-prefixed operator
      name to operand. */
  type Query = map<string, map<string, Operand>>

  /** The `filter` argument of a list query: left out, given as `null`, or an
      object from field name to its operator object (`None` when the field is
      given as `null`). */
  datatype FilterArg = Omitted | NullFilter | Given(fields: Obj<Option<Obj<Operand>>>) {
    predicate Valid() {
      Given? ==>
        && fields.Valid()
        && forall k :: k in fields.props && fields.props[k].Some? ==> fields.props[k].value.Valid()
    }
  }

  /** The name `sift` gives operator `op`: `'$' + op`. */
  function Dollar(op: string): string {
    "$" + op
  }

  /** Prefixing with `$` never makes two operator names collide. */
  lemma DollarInjective(a: string, b: string)
    requires Dollar(a) == Dollar(b)
    ensures a == b
  {
    assert a == Dollar(a)[1..];
    assert b == Dollar(b)[1..];
  }

  /** The `reduce` of `operatorsToSift` over the entries of the operator
      object whose keys, in order, are `keys`. */
  function PrefixOperators(keys: seq<string>, props: map<string, Operand>): (q: map<string, Operand>)
    requires forall i :: 0 <= i < |keys| ==> keys[i] in props
    ensures forall i :: 0 <= i < |keys| ==> Dollar(keys[i]) in q && q[Dollar(keys[i])] == props[keys[i]]
  {
    if keys == [] then map[]
    else
      var init, last := keys[..|keys| - 1], keys[|keys| - 1];
      assert forall i :: 0 <= i < |init| ==> init[i] == keys[i];
      var acc := PrefixOperators(init, props);
      var q := acc[Dollar(last) := props[last]];
      assert forall i :: 0 <= i < |init| ==> q[Dollar(init[i])] == props[init[i]] by {
        forall i | 0 <= i < |init|
          ensures q[Dollar(init[i])] == props[init[i]]
        {
          if Dollar(init[i]) == Dollar(last) {
            DollarInjective(init[i], last);
          }
        }
      }
      q
  }

  /** Every key of the prefixed query is the prefixed name of an operator. */
  lemma {:induction false} PrefixOperatorsKeys(keys: seq<string>, props: map<string, Operand>, key: string)
    requires forall i :: 0 <= i < |keys| ==> keys[i] in props
    requires key in PrefixOperators(keys, props)
    ensures exists i :: 0 <= i < |keys| && key == Dollar(keys[i])
  {
    var init, last := keys[..|keys| - 1], keys[|keys| - 1];
    if key != Dollar(last) {
      PrefixOperatorsKeys(init, props, key);
      var i :| 0 <= i < |init| && key == Dollar(init[i]);
      assert init[i] == keys[i];
    }
  }

  /** `operatorsToSift(operators)`: one key `"$" + op` per operator `op`,
      carrying that operator's operand unchanged (OperatorsToSiftKeys: and
      no other key). */
  function OperatorsToSift(operators: Obj<Operand>): (q: map<string, Operand>)
    requires operators.Valid()
    ensures forall op :: op in operators.props ==> Dollar(op) in q && q[Dollar(op)] == operators.props[op]
  {
    PrefixOperators(operators.keys, operators.props)
  }

  /** `operatorsToSift` adds no key other than the prefixed operator names. */
  lemma OperatorsToSiftKeys(operators: Obj<Operand>, key: string)
    requires operators.Valid()
    requires key in OperatorsToSift(operators)
    ensures exists op :: op in operators.props && key == Dollar(op)
  {
    PrefixOperatorsKeys(operators.keys, operators.props, key);
  }

  /** The `reduce` of `filterToSift` over the field entries seen so far,
      each field's operator object translated by `translate`; a field given
      as `null` throws, as `Object.entries(null)` does. */
  function FieldsToSift<T, U>(entries: seq<(string, Option<T>)>, translate: T --> U): (r: Result<map<string, U>>)
    requires DistinctKeys(entries)
    requires forall i :: 0 <= i < |entries| && entries[i].1.Some? ==> translate.requires(entries[i].1.value)
    ensures r.TypeError? <==> exists i :: 0 <= i < |entries| && entries[i].1.None?
    ensures r.Ok? ==> forall i :: 0 <= i < |entries| ==>
      entries[i].1.Some? && entries[i].0 in r.value && r.value[entries[i].0] == translate(entries[i].1.value)
  {
    if entries == [] then Ok(map[])
    else
      var init, last := entries[..|entries| - 1], entries[|entries| - 1];
      assert forall i :: 0 <= i < |init| ==> init[i] == entries[i];
      match FieldsToSift(init, translate)
      case TypeError => TypeError
      case Ok(acc) =>
        if last.1.None? then TypeError
        else
          var q := acc[last.0 := translate(last.1.value)];
          assert forall i :: 0 <= i < |init| ==> q[init[i].0] == acc[init[i].0] by {
            forall i | 0 <= i < |init|
              ensures q[init[i].0] == acc[init[i].0]
            {
              assert init[i].0 != last.0;
            }
          }
          Ok(q)
  }

  /** Every key of the query is the name of one of the fields seen. */
  lemma {:induction false} FieldsToSiftKeys<T, U>(entries: seq<(string, Option<T>)>, translate: T --> U, key: string)
    requires DistinctKeys(entries)
    requires forall i :: 0 <= i < |entries| && entries[i].1.Some? ==> translate.requires(entries[i].1.value)
    requires FieldsToSift(entries, translate).Ok? && key in FieldsToSift(entries, translate).value
    ensures exists i :: 0 <= i < |entries| && key == entries[i].0
  {
    var init, last := entries[..|entries| - 1], entries[|entries| - 1];
    assert forall i :: 0 <= i < |init| ==> init[i] == entries[i];
    if key != last.0 {
      FieldsToSiftKeys(init, translate, key);
      var i :| 0 <= i < |init| && key == init[i].0;
      assert key == entries[i].0;
    }
  }

  /** A field given as `null` is exactly what makes the reduce throw. */
  lemma FieldsQueryThrows<T, U>(fields: Obj<Option<T>>, translate: T --> U)
    requires fields.Valid()
    requires forall k :: k in fields.props && fields.props[k].Some? ==> translate.requires(fields.props[k].value)
    ensures FieldsToSift(Entries(fields), translate).TypeError? <==>
      exists k :: k in fields.props && fields.props[k].None?
  {
    var entries := Entries(fields);
    if FieldsToSift(entries, translate).TypeError? {
      var i :| 0 <= i < |entries| && entries[i].1.None?;
      assert entries[i].0 in fields.props;
    } else {
      forall k | k in fields.props
        ensures fields.props[k].Some?
      {
        var i := KeyIndex(fields, k);
        assert entries[i].1 == fields.props[k];
      }
    }
  }

  /** With no field given as `null`, the reduce completes, and the query
      has the filter's field names as keys, each holding its translated
      operator object. */
  lemma FieldsQueryValues<T, U>(fields: Obj<Option<T>>, translate: T --> U)
    requires fields.Valid()
    requires forall k :: k in fields.props ==> fields.props[k].Some? && translate.requires(fields.props[k].value)
    ensures FieldsToSift(Entries(fields), translate).Ok?
    ensures FieldsToSift(Entries(fields), translate).value.Keys == fields.props.Keys
    ensures forall k :: k in fields.props ==>
      FieldsToSift(Entries(fields), translate).value[k] == translate(fields.props[k].value)
  {
    FieldsQueryHasFields(fields, translate);
    FieldsQueryOnlyFields(fields, translate);
  }

  /** Each field of the filter is a key of the query, holding its translated
      operator object. */
  lemma FieldsQueryHasFields<T, U>(fields: Obj<Option<T>>, translate: T --> U)
    requires fields.Valid()
    requires forall k :: k in fields.props ==> fields.props[k].Some? && translate.requires(fields.props[k].value)
    ensures FieldsToSift(Entries(fields), translate).Ok?
    ensures forall k :: k in fields.props ==>
      && k in FieldsToSift(Entries(fields), translate).value
      && FieldsToSift(Entries(fields), translate).value[k] == translate(fields.props[k].value)
  {
  }

  /** The query has no key that is not a field of the filter. */
  lemma FieldsQueryOnlyFields<T, U>(fields: Obj<Option<T>>, translate: T --> U)
    requires fields.Valid()
    requires forall k :: k in fields.props && fields.props[k].Some? ==> translate.requires(fields.props[k].value)
    requires FieldsToSift(Entries(fields), translate).Ok?
    ensures forall k :: k in FieldsToSift(Entries(fields), translate).value ==> k in fields.props
  {
    var entries := Entries(fields);
    forall k | k in FieldsToSift(entries, translate).value
      ensures k in fields.props
    {
      FieldsToSiftKeys(entries, translate, k);
      var i :| 0 <= i < |entries| && k == entries[i].0;
    }
  }

  /** `filterToSift(filter)`, up to the call of `sift`: the query object.
      A missing filter defaults to `{}`; a `null` filter, or a field given as
      `null`, throws a TypeError. Otherwise the query has exactly the
      filter's field names as keys, each with its operators translated. */
  function FilterToSift(filter: FilterArg): (r: Result<Query>)
    requires filter.Valid()
    ensures r.TypeError? <==>
      || filter.NullFilter?
      || (filter.Given? && exists k :: k in filter.fields.props && filter.fields.props[k].None?)
    ensures filter.Omitted? ==> r == Ok(map[])
    ensures filter.Given? && filter.fields.props == map[] ==> r == Ok(map[])
    ensures r.Ok? && filter.Given? ==> r.value.Keys == filter.fields.props.Keys
    ensures r.Ok? && filter.Given? ==> forall k :: k in filter.fields.props ==>
      filter.fields.props[k].Some? && r.value[k] == OperatorsToSift(filter.fields.props[k].value)
  {
    match filter
    case Omitted => Ok(map[])
    case NullFilter => TypeError
    case Given(fields) =>
      var r := FieldsToSift(Entries(fields), OperatorsToSift);
      FieldsQueryThrows(fields, OperatorsToSift);
      if r.Ok? then
        FieldsQueryValues(fields, OperatorsToSift);
        r
      else r
  }
}
