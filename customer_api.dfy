/**
 * The customer hook: the search and paging helpers over its query, the
 * `checked` flag it adds to every customer, and how it files a response or
 * an error into its state.
 */
module CustomerApi {
  import opened Wrappers
  import opened Strings
  import opened JsValues
  import CdrApi

  datatype CustomerParams = CustomerParams(page: int, limit: int, phone: string, keyword: string)

  /** `searchByPhone`: the phone on the first page; limit and keyword stay. */
  function SearchByPhone(p: CustomerParams, phone: string): (r: CustomerParams)
    ensures r.phone == phone && r.page == 1
    ensures r.limit == p.limit && r.keyword == p.keyword
  {
    p.(phone := phone, page := 1)
  }

  /** `searchByKeyword`: the keyword on the first page; limit and phone stay. */
  function SearchByKeyword(p: CustomerParams, keyword: string): (r: CustomerParams)
    ensures r.keyword == keyword && r.page == 1
    ensures r.limit == p.limit && r.phone == p.phone
  {
    p.(keyword := keyword, page := 1)
  }

  /** `nextPage`. */
  function NextPage(p: CustomerParams): (r: CustomerParams)
    ensures r.page == p.page + 1
    ensures r.(page := p.page) == p
  {
    p.(page := p.page + 1)
  }

  /** `prevPage`: never below the first page. */
  function PrevPage(p: CustomerParams): (r: CustomerParams)
    ensures r.page >= 1
    ensures p.page > 1 ==> r.page == p.page - 1
    ensures p.page <= 1 ==> r.page == 1
    ensures r.(page := p.page) == p
  {
    p.(page := if p.page - 1 > 1 then p.page - 1 else 1)
  }

  /** A new search always starts on the first page, wherever paging had got to. */
  lemma SearchRestartsPaging(p: CustomerParams, phone: string, keyword: string)
    ensures SearchByPhone(NextPage(p), phone) == SearchByPhone(p, phone)
    ensures SearchByKeyword(NextPage(p), keyword) == SearchByKeyword(p, keyword)
    ensures PrevPage(SearchByPhone(p, phone)) == SearchByPhone(p, phone)
  {
  }

  lemma PrevUndoesNext(p: CustomerParams)
    requires p.page >= 1
    ensures PrevPage(NextPage(p)) == p
  {
  }

  const CHECKED := "checked"

  /** The value of a field: the last one of that name, or None. */
  function FieldValue(fields: seq<(string, Value)>, key: string): (r: Option<Value>)
    ensures r.None? <==> forall i :: 0 <= i < |fields| ==> fields[i].0 != key
  {
    if fields == [] then None
    else if fields[|fields| - 1].0 == key then Some(fields[|fields| - 1].1)
    else FieldValue(fields[..|fields| - 1], key)
  }

  /** A field set by `SetField` holds its value; every other field keeps its own. */
  lemma SetFieldValue(fields: seq<(string, Value)>, key: string, value: Value, other: string)
    requires forall i, j :: 0 <= i < j < |fields| ==> fields[i].0 != fields[j].0
    ensures FieldValue(SetField(fields, key, value), key) == Some(value)
    ensures other != key ==> FieldValue(SetField(fields, key, value), other) == FieldValue(fields, other)
    ensures forall i, j :: 0 <= i < j < |SetField(fields, key, value)| ==>
              SetField(fields, key, value)[i].0 != SetField(fields, key, value)[j].0
  {
    var r := SetField(fields, key, value);
    var k := FieldIndex(fields, key);
    if k >= 0 {
      assert FieldValue(r, key) == Some(value) by {
        LastFieldValue(r, k);
      }
      if other != key {
        FieldValueUpdate(fields, k, (key, value), other);
      }
    } else {
      assert r[..|r| - 1] == fields;
    }
  }

  /** With distinct names, a field's value is the one at its position. */
  lemma {:induction false} LastFieldValue(fields: seq<(string, Value)>, k: nat)
    requires k < |fields|
    requires forall i, j :: 0 <= i < j < |fields| ==> fields[i].0 != fields[j].0
    ensures FieldValue(fields, fields[k].0) == Some(fields[k].1)
    decreases |fields|
  {
    if k < |fields| - 1 {
      LastFieldValue(fields[..|fields| - 1], k);
    }
  }

  /** Replacing the field at one position leaves the values of other names unchanged. */
  lemma {:induction false} FieldValueUpdate(fields: seq<(string, Value)>, k: nat, field: (string, Value), other: string)
    requires k < |fields| && fields[k].0 == field.0 && other != field.0
    ensures FieldValue(fields[k := field], other) == FieldValue(fields, other)
    decreases |fields|
  {
    if k < |fields| - 1 {
      assert fields[k := field][..|fields| - 1] == fields[..|fields| - 1][k := field];
      FieldValueUpdate(fields[..|fields| - 1], k, field, other);
    }
  }

  /** After spreading, a name has the source's value when the source has it, and the target's otherwise. */
  lemma {:induction false} SpreadValue(target: seq<(string, Value)>, source: seq<(string, Value)>, key: string)
    requires forall i, j :: 0 <= i < j < |target| ==> target[i].0 != target[j].0
    requires forall i, j :: 0 <= i < j < |source| ==> source[i].0 != source[j].0
    ensures FieldValue(source, key).Some? ==> FieldValue(Spread(target, source), key) == FieldValue(source, key)
    ensures FieldValue(source, key).None? ==> FieldValue(Spread(target, source), key) == FieldValue(target, key)
    decreases |source|
  {
    if source != [] {
      var t := SetField(target, source[0].0, source[0].1);
      SetFieldValue(target, source[0].0, source[0].1, key);
      SpreadValue(t, source[1..], key);
      FieldValueOfTail(source, key);
    }
  }

  /** With distinct names, the first field's value is found at the front, and any other name in the rest. */
  lemma {:induction false} FieldValueOfTail(fields: seq<(string, Value)>, key: string)
    requires fields != []
    requires forall i, j :: 0 <= i < j < |fields| ==> fields[i].0 != fields[j].0
    ensures key == fields[0].0 ==> FieldValue(fields, key) == Some(fields[0].1)
    ensures key != fields[0].0 ==> FieldValue(fields, key) == FieldValue(fields[1..], key)
    decreases |fields|
  {
    if key == fields[0].0 {
      LastFieldValue(fields, 0);
    } else if |fields| > 1 {
      var init := fields[..|fields| - 1];
      if fields[|fields| - 1].0 != key {
        FieldValueOfTail(init, key);
        assert init[1..] == fields[1..][..|fields[1..]| - 1];
      }
    }
  }

  /** Setting a field keeps the name at every position. */
  lemma {:induction false} SpreadKeepsNames(target: seq<(string, Value)>, source: seq<(string, Value)>)
    ensures |Spread(target, source)| >= |target|
    ensures forall i :: 0 <= i < |target| ==> Spread(target, source)[i].0 == target[i].0
    decreases |source|
  {
    if source != [] {
      SpreadKeepsNames(SetField(target, source[0].0, source[0].1), source[1..]);
    }
  }

  /** `{ checked: false, ...item }`: an object's fields spread over a `checked` field set to false. */
  function MarkUnchecked(item: Value): (r: Value)
    ensures r.Obj?
  {
    match item
    case Obj(fields) => Obj(Spread([(CHECKED, Bool(false))], fields))
    case _ => Obj([(CHECKED, Bool(false))])
  }

  /**
   * A customer keeps every field it has, `checked` comes first, and it is
   * false unless the customer carries its own `checked`, which wins.
   */
  lemma MarkUncheckedFields(fields: seq<(string, Value)>, key: string)
    requires forall i, j :: 0 <= i < j < |fields| ==> fields[i].0 != fields[j].0
    ensures |MarkUnchecked(Obj(fields)).fields| >= 1 && MarkUnchecked(Obj(fields)).fields[0].0 == CHECKED
    ensures key != CHECKED ==> FieldValue(MarkUnchecked(Obj(fields)).fields, key) == FieldValue(fields, key)
    ensures FieldValue(MarkUnchecked(Obj(fields)).fields, CHECKED) ==
              if FieldValue(fields, CHECKED).Some? then FieldValue(fields, CHECKED) else Some(Bool(false))
  {
    SpreadKeepsNames([(CHECKED, Bool(false))], fields);
    SpreadValue([(CHECKED, Bool(false))], fields, key);
    SpreadValue([(CHECKED, Bool(false))], fields, CHECKED);
    assert FieldValue([(CHECKED, Bool(false))], CHECKED) == Some(Bool(false));
  }

  /** The body of a response: its customer list and count, when present. */
  datatype CustomerResult = CustomerResult(data: Option<seq<Value>>, count: Option<int>)

  datatype Outcome = Responded(result: Option<CustomerResult>) | Failed(err: CdrApi.FetchError)

  const CUSTOMER_LOAD_FAILED := "Không thể tải dữ liệu khách hàng"

  /** The customers shown for a list from the server. */
  function Customers(items: seq<Value>): (r: seq<Value>)
    ensures |r| == |items|
    ensures forall i :: 0 <= i < |items| ==> r[i] == MarkUnchecked(items[i])
  {
    seq(|items|, i requires 0 <= i < |items| => MarkUnchecked(items[i]))
  }

  class CustomerHook {
    var data: seq<Value>
    var isLoading: bool
    var error: Option<CdrApi.FetchError>
    var totalCount: int
    var toasts: seq<string>

    constructor()
      ensures data == [] && isLoading && error.None? && totalCount == 0 && toasts == []
    {
      data := [];
      isLoading := true;
      error := None;
      totalCount := 0;
      toasts := [];
    }

    /**
     * `fetchCustomers`: without a token nothing is requested; a body with a
     * list shows its customers and count, one without empties the list; an
     * error is reported, and only a 403 answers that the session expired.
     */
    method FetchCustomers(token: Option<string>, outcome: Outcome) returns (r: Option<bool>)
      modifies this`data, this`isLoading, this`error, this`totalCount, this`toasts
      ensures !isLoading
      ensures token.None? || token.value == "" ==>
                r.None? && data == old(data) && error == old(error) && totalCount == old(totalCount) && toasts == old(toasts)
      ensures token.Some? && token.value != "" && outcome.Responded? ==>
                r.None? && error == old(error) && toasts == old(toasts) &&
                (if outcome.result.Some? && outcome.result.value.data.Some?
                 then data == Customers(outcome.result.value.data.value) && totalCount == CdrApi.OrZero(outcome.result.value.count)
                 else data == [] && totalCount == old(totalCount))
      ensures token.Some? && token.value != "" && outcome.Failed? ==>
                data == old(data) && totalCount == old(totalCount) && error == Some(outcome.err) &&
                toasts == old(toasts) + [CdrApi.ErrorToast(outcome.err, CUSTOMER_LOAD_FAILED)] &&
                (r == Some(true) <==> outcome.err.status == Some(403)) && (r.None? <==> outcome.err.status != Some(403))
    {
      if token.None? || token.value == "" {
        isLoading := false;
        return None;
      }
      isLoading := true;
      match outcome {
        case Failed(e) =>
          error := Some(e);
          isLoading := false;
          if e.status == Some(403) {
            toasts := toasts + [CdrApi.SESSION_EXPIRED];
            return Some(true);
          }
          toasts := toasts + [CdrApi.ErrorToast(e, CUSTOMER_LOAD_FAILED)];
          return None;
        case Responded(result) =>
          if result.Some? && result.value.data.Some? {
            data := Customers(result.value.data.value);
            totalCount := CdrApi.OrZero(result.value.count);
          } else {
            data := [];
          }
          isLoading := false;
          return None;
      }
    }
  }
}
