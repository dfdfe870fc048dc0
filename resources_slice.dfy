/**
 * The resource store of the console: the state record, the transition each
 * async-thunk outcome makes on it, and the two request helpers the thunks use
 * (the error rule for replies and the choice between a JSON and a multipart body).
 */
module ResourcesSlice {
  import opened Wrappers
  import opened JsValues
  import Http

  // ---------------------------------------------------------------------------
  // handleApiResponse
  // ---------------------------------------------------------------------------

  /**
   * `handleApiResponse`: read the reply's JSON (`parsed`, a failure when the
   * text is not JSON) and throw unless the reply is ok.  The thrown text is
   * `result.message || "An error occurred"`; reading `message` off a reply
   * body of `null` throws a TypeError instead.
   */
  function HandleApiResponse(ok: bool, parsed: Result<Value>): (r: Result<Value>)
    ensures parsed.Failure? ==> r == parsed
    ensures parsed.Success? ==> (r.Success? <==> ok)
    ensures r.Success? ==> r.value == parsed.value
    ensures parsed.Success? && !ok && Nullish(parsed.value) ==> r == Failure(TYPE_ERROR)
    ensures parsed.Success? && !ok && !Nullish(parsed.value) && Truthy(Get(parsed.value, "message"))
            ==> r == Failure(ToJsString(Get(parsed.value, "message")))
    ensures parsed.Success? && !ok && !Nullish(parsed.value) && !Truthy(Get(parsed.value, "message"))
            ==> r == Failure("An error occurred")
  {
    Http.ThrowUnlessOk(ok, parsed, "An error occurred")
  }

  // ---------------------------------------------------------------------------
  // prepareRequestOptions
  // ---------------------------------------------------------------------------

  /** What `FormData.append(key, v)` stores: a file as it is, anything else as `String(v)`. */
  datatype FormPart = FilePart(file: Value) | TextPart(text: string)

  datatype FormEntry = FormEntry(key: string, part: FormPart)

  datatype RequestBody = JsonBody(json: Value) | Multipart(entries: seq<FormEntry>)

  datatype RequestOptions = RequestOptions(
    verb: string,
    headers: seq<(string, string)>,
    body: RequestBody,
    credentials: string)

  const JSON_HEADERS: seq<(string, string)> := [("Content-Type", "application/json")]

  function ToFormPart(v: Value): (p: FormPart)
    ensures p.FilePart? <==> v.File?
  {
    if v.File? then FilePart(v) else TextPart(ToJsString(v))
  }

  /** `value instanceof File || (Array.isArray(value) && value[0] instanceof File)`. */
  predicate IsFileField(v: Value)
  {
    v.File? || (v.Arr? && |v.items| > 0 && v.items[0].File?)
  }

  /** `Object.values(body).some(IsFileField)`, for a body that is not null or undefined. */
  predicate HasFile(body: Value)
  {
    exists i :: 0 <= i < |OwnProps(body)| && IsFileField(OwnProps(body)[i].val)
  }

  /**
   * The entries one own property adds to the form: one per element of an
   * array that starts with a file, otherwise exactly one.
   */
  function FieldEntries(p: Prop): (es: seq<FormEntry>)
    ensures forall j :: 0 <= j < |es| ==> es[j].key == p.key
    ensures |es| == if IsFileField(p.val) && p.val.Arr? then |p.val.items| else 1
    ensures p.val.File? ==> es == [FormEntry(p.key, FilePart(p.val))]
    ensures p.val.Arr? && IsFileField(p.val) ==>
              forall j :: 0 <= j < |es| ==> es[j].part == ToFormPart(p.val.items[j])
  {
    if p.val.File? then [FormEntry(p.key, FilePart(p.val))]
    else if IsFileField(p.val) then
      seq(|p.val.items|, j requires 0 <= j < |p.val.items| => FormEntry(p.key, ToFormPart(p.val.items[j])))
    else [FormEntry(p.key, ToFormPart(p.val))]
  }

  /** The form that the `for...in` loop builds from the properties `props`, in their order. */
  function FormEntries(props: seq<Prop>): seq<FormEntry>
  {
    if |props| == 0 then [] else FormEntries(props[..|props| - 1]) + FieldEntries(props[|props| - 1])
  }

  /** The entries of `es` under one key, in order. */
  function EntriesFor(es: seq<FormEntry>, k: string): (r: seq<FormEntry>)
    ensures forall j :: 0 <= j < |r| ==> r[j].key == k
  {
    if |es| == 0 then []
    else EntriesFor(es[..|es| - 1], k) + (if es[|es| - 1].key == k then [es[|es| - 1]] else [])
  }

  lemma {:induction false} EntriesForConcat(a: seq<FormEntry>, b: seq<FormEntry>, k: string)
    ensures EntriesFor(a + b, k) == EntriesFor(a, k) + EntriesFor(b, k)
    decreases |b|
  {
    if |b| == 0 {
      assert a + b == a;
    } else {
      var c, init, last := a + b, b[..|b| - 1], b[|b| - 1];
      assert c[..|c| - 1] == a + init && c[|c| - 1] == last;
      var tail := if last.key == k then [last] else [];
      assert EntriesFor(c, k) == EntriesFor(a + init, k) + tail;
      EntriesForConcat(a, init, k);
      assert EntriesFor(b, k) == EntriesFor(init, k) + tail;
    }
  }

  lemma {:induction false} EntriesForSameKey(es: seq<FormEntry>, k: string)
    requires forall j :: 0 <= j < |es| ==> es[j].key == k
    ensures EntriesFor(es, k) == es
  {
    if |es| > 0 {
      EntriesForSameKey(es[..|es| - 1], k);
    }
  }

  lemma {:induction false} EntriesForOtherKey(es: seq<FormEntry>, k: string)
    requires forall j :: 0 <= j < |es| ==> es[j].key != k
    ensures EntriesFor(es, k) == []
  {
    if |es| > 0 {
      EntriesForOtherKey(es[..|es| - 1], k);
    }
  }

  /**
   * In the multipart form, the entries under the key of property `i` are
   * exactly that property's entries: every element of a file array under the
   * same key, any other value once.
   */
  lemma {:induction false} FormEntriesPerKey(props: seq<Prop>, i: nat)
    requires DistinctKeys(props) && i < |props|
    ensures EntriesFor(FormEntries(props), props[i].key) == FieldEntries(props[i])
  {
    var n := |props|;
    var last := props[n - 1];
    var init := props[..n - 1];
    EntriesForConcat(FormEntries(init), FieldEntries(last), props[i].key);
    if i == n - 1 {
      EntriesForSameKey(FieldEntries(last), last.key);
      NoEntriesForAbsentKey(init, last.key);
    } else {
      assert last.key != props[i].key;
      EntriesForOtherKey(FieldEntries(last), props[i].key);
      assert DistinctKeys(init) by {
        forall a, b | 0 <= a < b < |init| ensures init[a].key != init[b].key {
          assert init[a] == props[a] && init[b] == props[b];
        }
      }
      assert init[i] == props[i];
      FormEntriesPerKey(init, i);
    }
  }

  /** A key that no property has gets no form entry. */
  lemma {:induction false} NoEntriesForAbsentKey(props: seq<Prop>, k: string)
    requires forall j :: 0 <= j < |props| ==> props[j].key != k
    ensures EntriesFor(FormEntries(props), k) == []
  {
    if |props| > 0 {
      var n := |props|;
      EntriesForConcat(FormEntries(props[..n - 1]), FieldEntries(props[n - 1]), k);
      EntriesForOtherKey(FieldEntries(props[n - 1]), k);
      NoEntriesForAbsentKey(props[..n - 1], k);
    }
  }

  /** The inner `forEach` of the form loop: one entry per element of a file array, in order. */
  method AppendFileArray(form: seq<FormEntry>, p: Prop) returns (r: seq<FormEntry>)
    requires p.val.Arr? && IsFileField(p.val)
    ensures r == form + FieldEntries(p)
  {
    r := form;
    var items := p.val.items;
    var j := 0;
    while j < |items|
      invariant 0 <= j <= |items|
      invariant r == form + FieldEntries(p)[..j]
    {
      r := r + [FormEntry(p.key, ToFormPart(items[j]))];
      assert FieldEntries(p)[..j + 1] == FieldEntries(p)[..j] + [FormEntry(p.key, ToFormPart(items[j]))];
      j := j + 1;
    }
  }

  /** The `for...in` loop over the body's own properties, appending each one's entries. */
  method BuildForm(props: seq<Prop>) returns (form: seq<FormEntry>)
    ensures form == FormEntries(props)
  {
    form := [];
    var i := 0;
    while i < |props|
      invariant 0 <= i <= |props|
      invariant form == FormEntries(props[..i])
    {
      var key, value := props[i].key, props[i].val;
      assert props[..i + 1][..i] == props[..i];
      if value.File? {
        form := form + [FormEntry(key, FilePart(value))];
      } else if IsFileField(value) {
        form := AppendFileArray(form, props[i]);
      } else {
        form := form + [FormEntry(key, ToFormPart(value))];
      }
      i := i + 1;
    }
    assert props[..|props|] == props;
  }

  /**
   * `prepareRequestOptions(method, body)`.  `Object.values` throws a
   * TypeError on a null or undefined body.  When some value is a file (or an
   * array starting with one) the body is a form with no headers; otherwise
   * it is the body as JSON with a `Content-Type: application/json` header.
   * The property's value is `body[key]`, as it is for an object whose
   * property names are distinct and for an array.
   */
  method PrepareRequestOptions(verb: string, body: Value) returns (r: Result<RequestOptions>)
    ensures r.Failure? <==> Nullish(body)
    ensures r.Failure? ==> r.message == TYPE_ERROR
    ensures r.Success? ==> r.value.verb == verb && r.value.credentials == "include"
    ensures r.Success? ==> (r.value.headers == JSON_HEADERS <==> !HasFile(body))
    ensures r.Success? ==> (r.value.body.JsonBody? <==> !HasFile(body))
    ensures r.Success? && !HasFile(body) ==> r.value.body == JsonBody(body)
    ensures r.Success? && HasFile(body) ==>
              r.value.headers == [] && r.value.body == Multipart(FormEntries(OwnProps(body)))
  {
    if Nullish(body) {
      return Failure(TYPE_ERROR);
    }
    if !HasFile(body) {
      return Success(RequestOptions(verb, JSON_HEADERS, JsonBody(body), "include"));
    }
    var form := BuildForm(OwnProps(body));
    return Success(RequestOptions(verb, [], Multipart(form), "include"));
  }

  // ---------------------------------------------------------------------------
  // The state record and the reducer
  // ---------------------------------------------------------------------------

  datatype Status = Idle | Loading | Succeeded | Failed

  /** `{user, data, status, message, error}`; a key missing from `data` reads as undefined. */
  datatype State = State(user: Value, data: map<string, Value>, status: Status, message: Value, error: Value)

  /**
   * The completed outcomes of the thunks.  The payload of a rejection is what
   * the thunk passed to `rejectWithValue` (the error message); a fulfilled
   * action carries the fields of the object the thunk returned.
   */
  datatype Action =
    | RegisterPending | RegisterFulfilled(message: Value) | RegisterRejected(payload: Value)
    | CommitteePending | CommitteeFulfilled(message: Value) | CommitteeRejected(payload: Value)
    | LoginPending | LoginFulfilled(data: Value, message: Value) | LoginRejected(payload: Value)
    | LogoutPending | LogoutFulfilled | LogoutRejected
    | FetchPending | FetchFulfilled(resource: string, data: Value) | FetchRejected(payload: Value)
    | FetchByIdPending | FetchByIdFulfilled(resource: string, data: Value) | FetchByIdRejected(payload: Value)
    | CreatePending | CreateFulfilled(resource: string, data: Value) | CreateRejected(payload: Value)
    | UpdatePending | UpdateFulfilled(resource: string, id: Value, data: Value) | UpdateRejected(payload: Value)
    | DeletePending | DeleteFulfilled(resource: string, id: Value) | DeleteRejected(payload: Value)

  /** A reducer case either yields the next state or throws, which leaves the store as it was. */
  datatype Step = Next(state: State) | Throws

  function InitialState(storedUser: Value): (s: State)
    ensures s.data == map[] && s.status == Idle && s.message == Null && s.error == Null
  {
    State(storedUser, map[], Idle, Null, Null)
  }

  function DataAt(data: map<string, Value>, key: string): Value
  {
    if key in data then data[key] else Undefined
  }

  /** The suffix the fetch-by-id case appends to the resource name. */
  function ByIdKey(resource: string): (k: string)
    ensures |k| == |resource| + 4 && k[..|resource|] == resource && k[|resource|..] == "ById"
  {
    resource + "ById"
  }

  /** `item._id === id`, for an item that is not null or undefined. */
  predicate HasId(item: Value, id: Value)
  {
    StrictEquals(Get(item, "_id"), id)
  }

  /**
   * `items.map(item => item._id === id ? { ...item, ...data } : item)`;
   * a null or undefined item makes `item._id` throw.
   */
  function UpdateItems(items: seq<Value>, id: Value, data: Value): (r: Option<seq<Value>>)
    ensures r.Some? <==> forall i :: 0 <= i < |items| ==> !Nullish(items[i])
    ensures r.Some? ==> |r.value| == |items|
    ensures r.Some? ==> forall i :: 0 <= i < |items| ==>
              r.value[i] == if HasId(items[i], id) then Merge(items[i], data) else items[i]
  {
    if |items| == 0 then Some([])
    else if Nullish(items[0]) then None
    else
      match UpdateItems(items[1..], id, data)
      case None => None
      case Some(rest) =>
        assert forall i :: 0 < i < |items| ==> items[i] == items[1..][i - 1];
        Some([if HasId(items[0], id) then Merge(items[0], data) else items[0]] + rest)
  }

  /** `a` is `b` with some elements left out and the rest in their order. */
  ghost predicate IsSubsequence(a: seq<Value>, b: seq<Value>)
    decreases |b|
  {
    || |a| == 0
    || (|b| > 0 && ((a[0] == b[0] && IsSubsequence(a[1..], b[1..])) || IsSubsequence(a, b[1..])))
  }

  /**
   * `items.filter(item => item._id !== id)`; a null or undefined item makes
   * `item._id` throw.
   */
  function RemoveItems(items: seq<Value>, id: Value): (r: Option<seq<Value>>)
    ensures r.Some? <==> forall i :: 0 <= i < |items| ==> !Nullish(items[i])
    ensures r.Some? ==> |r.value| <= |items|
    ensures r.Some? ==> forall i :: 0 <= i < |r.value| ==> !HasId(r.value[i], id)
  {
    if |items| == 0 then Some([])
    else if Nullish(items[0]) then None
    else
      match RemoveItems(items[1..], id)
      case None =>
        assert exists i :: 0 <= i < |items| && Nullish(items[i]) by {
          var j :| 0 <= j < |items| - 1 && Nullish(items[1..][j]);
          assert items[j + 1] == items[1..][j];
        }
        None
      case Some(rest) =>
        assert forall i :: 0 < i < |items| ==> items[i] == items[1..][i - 1];
        if HasId(items[0], id) then Some(rest) else Some([items[0]] + rest)
  }

  /** The kept items are the non-matching ones, each as often as before ... */
  lemma {:induction false} RemoveItemsKeepsOthers(items: seq<Value>, id: Value)
    requires RemoveItems(items, id).Some?
    ensures forall x :: multiset(RemoveItems(items, id).value)[x] == if HasId(x, id) then 0 else multiset(items)[x]
  {
    if |items| > 0 {
      RemoveItemsKeepsOthers(items[1..], id);
      assert items == [items[0]] + items[1..];
    }
  }

  /** ... and in their original order. */
  lemma {:induction false} RemoveItemsKeepsOrder(items: seq<Value>, id: Value)
    requires RemoveItems(items, id).Some?
    ensures IsSubsequence(RemoveItems(items, id).value, items)
  {
    if |items| > 0 {
      RemoveItemsKeepsOrder(items[1..], id);
      var rest := RemoveItems(items[1..], id).value;
      if !HasId(items[0], id) {
        assert ([items[0]] + rest)[1..] == rest;
      }
    }
  }

  /**
   * One reducer case per action.  Cases the slice does not handle leave the
   * state as it is.  A case that throws (pushing onto a non-array, filtering a
   * missing list, reading `_id` of a null item) leaves it as it is too, and
   * the dispatch throws.
   */
  function Reduce(s: State, a: Action): Step
  {
    match a
    case RegisterPending => Next(s.(status := Loading))
    case RegisterFulfilled(m) => Next(s.(status := Succeeded, message := m))
    case RegisterRejected(p) => Next(s.(status := Failed, error := p))
    case CommitteePending => Next(s.(status := Loading))
    case CommitteeFulfilled(m) => Next(s.(status := Succeeded, message := m))
    case CommitteeRejected(p) => Next(s.(status := Failed, error := p))
    case LoginPending => Next(s)
    case LoginFulfilled(d, m) => Next(s.(user := d, message := m, status := Succeeded))
    case LoginRejected(p) => Next(s.(error := p, status := Failed))
    case LogoutPending => Next(s)
    case LogoutFulfilled => Next(s.(user := Null, status := Idle))
    case LogoutRejected => Next(s)
    case FetchPending => Next(s.(status := Loading))
    case FetchFulfilled(r, d) => Next(s.(data := s.data[r := Or(d, Arr([]))], status := Succeeded))
    case FetchRejected(p) => Next(s.(status := Failed, error := p))
    case FetchByIdPending => Next(s.(status := Loading, error := Null))
    case FetchByIdFulfilled(r, d) => Next(s.(data := s.data[ByIdKey(r) := d], status := Succeeded))
    case FetchByIdRejected(p) => Next(s.(status := Failed, error := Or(p, Str("Something went wrong"))))
    case CreatePending => Next(s.(status := Loading))
    case CreateFulfilled(r, d) =>
      var list := if Truthy(DataAt(s.data, r)) then DataAt(s.data, r) else Arr([]);
      if list.Arr? then Next(s.(data := s.data[r := Arr(list.items + [d])], status := Succeeded))
      else Throws
    case CreateRejected(p) => Next(s.(status := Failed, error := p))
    case UpdatePending => Next(s)
    case UpdateFulfilled(r, id, d) =>
      var current := DataAt(s.data, r);
      if current.Arr? then
        match UpdateItems(current.items, id, d)
        case None => Throws
        case Some(items) => Next(s.(data := s.data[r := Arr(items)]))
      else if Truthy(current) && (current.Obj? || current.File?) then
        Next(s.(data := s.data[r := Merge(current, d)]))
      else Next(s.(data := s.data[r := d]))
    case UpdateRejected(p) => Next(s)
    case DeletePending => Next(s)
    case DeleteFulfilled(r, id) =>
      var current := DataAt(s.data, r);
      if current.Arr? then
        match RemoveItems(current.items, id)
        case None => Throws
        case Some(items) => Next(s.(data := s.data[r := Arr(items)]))
      else Throws
    case DeleteRejected(p) => Next(s)
  }

  // ---------------------------------------------------------------------------
  // The store
  // ---------------------------------------------------------------------------

  /** The actions of the create, update and delete thunks: the only cases that can throw. */
  predicate IsResourceEdit(a: Action)
  {
    a.CreatePending? || a.CreateFulfilled? || a.CreateRejected?
    || a.UpdatePending? || a.UpdateFulfilled? || a.UpdateRejected?
    || a.DeletePending? || a.DeleteFulfilled? || a.DeleteRejected?
  }

  /** The slice's state as the store holds it; each dispatch assigns its fields in place. */
  class Store {
    var user: Value
    var data: map<string, Value>
    var status: Status
    var message: Value
    var error: Value

    function Snapshot(): State
      reads this
    {
      State(user, data, status, message, error)
    }

    /** `initialState`, with the user restored from local storage. */
    constructor (storedUser: Value)
      ensures Snapshot() == InitialState(storedUser)
    {
      user := storedUser;
      data := map[];
      status := Idle;
      message := Null;
      error := Null;
    }

    /**
     * Run the reducer case for `a`; `threw` when the case throws, and then
     * nothing has changed.
     */
    method Dispatch(a: Action) returns (threw: bool)
      modifies this
      ensures threw <==> Reduce(old(Snapshot()), a).Throws?
      ensures !threw ==> Snapshot() == Reduce(old(Snapshot()), a).state
      ensures threw ==> Snapshot() == old(Snapshot())
    {
      if IsResourceEdit(a) {
        threw := DispatchEdit(a);
      } else {
        DispatchOther(a);
        threw := false;
      }
    }

    /** The cases of the register, committee, login, logout, fetch and fetch-by-id thunks, none of which throws. */
    method DispatchOther(a: Action)
      requires !IsResourceEdit(a)
      modifies this
      ensures Reduce(old(Snapshot()), a).Next? && Snapshot() == Reduce(old(Snapshot()), a).state
    {
      match a {
        case RegisterPending => status := Loading;
        case RegisterFulfilled(m) => status := Succeeded; message := m;
        case RegisterRejected(p) => status := Failed; error := p;
        case CommitteePending => status := Loading;
        case CommitteeFulfilled(m) => status := Succeeded; message := m;
        case CommitteeRejected(p) => status := Failed; error := p;
        case LoginPending =>
        case LoginFulfilled(d, m) => user := d; message := m; status := Succeeded;
        case LoginRejected(p) => error := p; status := Failed;
        case LogoutPending =>
        case LogoutFulfilled => user := Null; status := Idle;
        case LogoutRejected =>
        case FetchPending => status := Loading;
        case FetchFulfilled(r, d) => data := data[r := Or(d, Arr([]))]; status := Succeeded;
        case FetchRejected(p) => status := Failed; error := p;
        case FetchByIdPending => status := Loading; error := Null;
        case FetchByIdFulfilled(r, d) => data := data[ByIdKey(r) := d]; status := Succeeded;
        case FetchByIdRejected(p) => status := Failed; error := Or(p, Str("Something went wrong"));
      }
    }

    /** The cases of the create, update and delete thunks. */
    method DispatchEdit(a: Action) returns (threw: bool)
      requires IsResourceEdit(a)
      modifies this
      ensures threw <==> Reduce(old(Snapshot()), a).Throws?
      ensures !threw ==> Snapshot() == Reduce(old(Snapshot()), a).state
      ensures threw ==> Snapshot() == old(Snapshot())
    {
      threw := false;
      match a {
        case CreatePending => status := Loading;
        case CreateFulfilled(r, d) => threw := Create(r, d);
        case CreateRejected(p) => status := Failed; error := p;
        case UpdatePending =>
        case UpdateFulfilled(r, id, d) => threw := Update(r, id, d);
        case UpdateRejected(p) =>
        case DeletePending =>
        case DeleteFulfilled(r, id) => threw := Delete(r, id);
        case DeleteRejected(p) =>
      }
    }

    /** The `createResource.fulfilled` case. */
    method Create(r: string, d: Value) returns (threw: bool)
      modifies this`data, this`status
      ensures threw <==> Reduce(old(Snapshot()), CreateFulfilled(r, d)).Throws?
      ensures !threw ==> Snapshot() == Reduce(old(Snapshot()), CreateFulfilled(r, d)).state
      ensures threw ==> Snapshot() == old(Snapshot())
    {
      if !Truthy(DataAt(data, r)) {
        data := data[r := Arr([])];
      }
      var list := data[r];
      if !list.Arr? {
        return true;
      }
      data := data[r := Arr(list.items + [d])];
      status := Succeeded;
      threw := false;
    }

    /** The `updateResource.fulfilled` case. */
    method Update(r: string, id: Value, d: Value) returns (threw: bool)
      modifies this`data
      ensures threw <==> Reduce(old(Snapshot()), UpdateFulfilled(r, id, d)).Throws?
      ensures !threw ==> Snapshot() == Reduce(old(Snapshot()), UpdateFulfilled(r, id, d)).state
      ensures threw ==> Snapshot() == old(Snapshot())
    {
      threw := false;
      var current := DataAt(data, r);
      if current.Arr? {
        var items := UpdateItems(current.items, id, d);
        if items.None? {
          return true;
        }
        data := data[r := Arr(items.value)];
      } else if Truthy(current) && (current.Obj? || current.File?) {
        data := data[r := Merge(current, d)];
      } else {
        data := data[r := d];
      }
    }

    /** The `deleteResource.fulfilled` case. */
    method Delete(r: string, id: Value) returns (threw: bool)
      modifies this`data
      ensures threw <==> Reduce(old(Snapshot()), DeleteFulfilled(r, id)).Throws?
      ensures !threw ==> Snapshot() == Reduce(old(Snapshot()), DeleteFulfilled(r, id)).state
      ensures threw ==> Snapshot() == old(Snapshot())
    {
      var current := DataAt(data, r);
      if !current.Arr? {
        return true;
      }
      var items := RemoveItems(current.items, id);
      if items.None? {
        return true;
      }
      data := data[r := Arr(items.value)];
      threw := false;
    }
  }

  // ---------------------------------------------------------------------------
  // What each case promises
  // ---------------------------------------------------------------------------

  predicate IsPending(a: Action)
  {
    a.RegisterPending? || a.CommitteePending? || a.FetchPending? || a.FetchByIdPending? || a.CreatePending?
  }

  /** Every handled pending case sets "loading"; only fetch-by-id also clears the error. */
  lemma PendingSetsLoading(s: State, a: Action)
    requires IsPending(a)
    ensures Reduce(s, a).Next?
    ensures Reduce(s, a).state.status == Loading
    ensures Reduce(s, a).state.error == if a.FetchByIdPending? then Null else s.error
    ensures Reduce(s, a).state.(status := s.status, error := s.error) == s
  {
  }

  /** The actions without a case change nothing. */
  lemma UnhandledActionsKeepState(s: State, a: Action)
    requires a.LoginPending? || a.LogoutPending? || a.LogoutRejected? || a.UpdatePending?
          || a.UpdateRejected? || a.DeletePending? || a.DeleteRejected?
    ensures Reduce(s, a) == Next(s)
  {
  }

  /** Create starts a missing (or falsy) list as `[]`, then appends the new item last. */
  lemma CreateAppends(s: State, r: string, d: Value)
    requires DataAt(s.data, r).Arr? || !Truthy(DataAt(s.data, r))
    ensures Reduce(s, CreateFulfilled(r, d)).Next?
    ensures var t := Reduce(s, CreateFulfilled(r, d)).state;
            var before := if DataAt(s.data, r).Arr? then DataAt(s.data, r).items else [];
            && t.status == Succeeded
            && DataAt(t.data, r).Arr?
            && |DataAt(t.data, r).items| == |before| + 1
            && DataAt(t.data, r).items[|before|] == d
            && DataAt(t.data, r).items[..|before|] == before
            && (forall k :: k != r ==> DataAt(t.data, k) == DataAt(s.data, k))
  {
    var before := if DataAt(s.data, r).Arr? then DataAt(s.data, r).items else [];
    assert (before + [d])[..|before|] == before;
  }

  /** Create onto a value that is truthy but not a list throws. */
  lemma CreateOntoNonListThrows(s: State, r: string, d: Value)
    requires Truthy(DataAt(s.data, r)) && !DataAt(s.data, r).Arr?
    ensures Reduce(s, CreateFulfilled(r, d)) == Throws
  {
  }

  /**
   * Update on a list keeps its length and order, merges `d` into exactly the
   * items whose `_id` is `id`, and keeps the status.
   */
  lemma UpdateListMergesMatching(s: State, r: string, id: Value, d: Value)
    requires DataAt(s.data, r).Arr?
    requires forall i :: 0 <= i < |DataAt(s.data, r).items| ==> !Nullish(DataAt(s.data, r).items[i])
    ensures Reduce(s, UpdateFulfilled(r, id, d)).Next?
    ensures var t := Reduce(s, UpdateFulfilled(r, id, d)).state;
            var before := DataAt(s.data, r).items;
            && t.status == s.status && t.user == s.user && t.error == s.error && t.message == s.message
            && DataAt(t.data, r).Arr?
            && |DataAt(t.data, r).items| == |before|
            && (forall i :: 0 <= i < |before| && !HasId(before[i], id) ==> DataAt(t.data, r).items[i] == before[i])
            && (forall i :: 0 <= i < |before| && HasId(before[i], id) ==> DataAt(t.data, r).items[i] == Merge(before[i], d))
            && (forall k :: k != r ==> DataAt(t.data, k) == DataAt(s.data, k))
  {
  }

  /** Update on a list holding a null or undefined item throws. */
  lemma UpdateListWithNullThrows(s: State, r: string, id: Value, d: Value, i: nat)
    requires DataAt(s.data, r).Arr? && i < |DataAt(s.data, r).items| && Nullish(DataAt(s.data, r).items[i])
    ensures Reduce(s, UpdateFulfilled(r, id, d)) == Throws
  {
  }

  /**
   * Update on a stored object merges the new fields over the old ones: a
   * field of `d` wins, every other field keeps its value.  On a missing key
   * (or a primitive) the value becomes `d` itself.
   */
  lemma UpdateObjectMerges(s: State, r: string, id: Value, d: Value, field: string)
    requires DataAt(s.data, r).Obj? && d.Obj? && DistinctKeys(d.props)
    ensures Reduce(s, UpdateFulfilled(r, id, d)).Next?
    ensures var t := Reduce(s, UpdateFulfilled(r, id, d)).state;
            Get(DataAt(t.data, r), field) ==
              if Lookup(d.props, field).Some? then Get(d, field) else Get(DataAt(s.data, r), field)
  {
    GetMerge(DataAt(s.data, r), d, field);
  }

  /**
   * Update on a missing key, a falsy value or a primitive (anything but a
   * list or a truthy object) stores `d` itself.
   */
  lemma UpdateMissingSets(s: State, r: string, id: Value, d: Value)
    requires !DataAt(s.data, r).Arr?
    requires !(Truthy(DataAt(s.data, r)) && (DataAt(s.data, r).Obj? || DataAt(s.data, r).File?))
    ensures Reduce(s, UpdateFulfilled(r, id, d)) == Next(s.(data := s.data[r := d]))
  {
  }

  /**
   * Delete on a list leaves no item with that `_id`, keeps every other item
   * as often as before and in its order, and never grows the list.
   */
  lemma DeleteRemovesId(s: State, r: string, id: Value)
    requires DataAt(s.data, r).Arr?
    requires forall i :: 0 <= i < |DataAt(s.data, r).items| ==> !Nullish(DataAt(s.data, r).items[i])
    ensures Reduce(s, DeleteFulfilled(r, id)).Next?
    ensures var t := Reduce(s, DeleteFulfilled(r, id)).state;
            var before := DataAt(s.data, r).items;
            && t.status == s.status
            && DataAt(t.data, r).Arr?
            && |DataAt(t.data, r).items| <= |before|
            && (forall i :: 0 <= i < |DataAt(t.data, r).items| ==> !HasId(DataAt(t.data, r).items[i], id))
            && (forall x :: !HasId(x, id) ==> multiset(DataAt(t.data, r).items)[x] == multiset(before)[x])
            && IsSubsequence(DataAt(t.data, r).items, before)
            && (forall k :: k != r ==> DataAt(t.data, k) == DataAt(s.data, k))
  {
    var before := DataAt(s.data, r).items;
    var kept := RemoveItems(before, id).value;
    DeleteStep(s, r, id);
    var t := s.(data := s.data[r := Arr(kept)]);
    assert DataAt(t.data, r).items == kept;
    assert forall k :: k != r ==> DataAt(t.data, k) == DataAt(s.data, k);
    RemoveItemsKeepsOthers(before, id);
    RemoveItemsKeepsOrder(before, id);
  }

  /** The delete case on a list of non-null items stores the filtered list and nothing else. */
  lemma DeleteStep(s: State, r: string, id: Value)
    requires DataAt(s.data, r).Arr?
    requires forall i :: 0 <= i < |DataAt(s.data, r).items| ==> !Nullish(DataAt(s.data, r).items[i])
    ensures RemoveItems(DataAt(s.data, r).items, id).Some?
    ensures Reduce(s, DeleteFulfilled(r, id))
            == Next(s.(data := s.data[r := Arr(RemoveItems(DataAt(s.data, r).items, id).value)]))
  {
  }

  /** Delete throws when the key holds no list, or the list holds a null item. */
  lemma DeleteThrows(s: State, r: string, id: Value)
    ensures Reduce(s, DeleteFulfilled(r, id)) == Throws <==>
              (!DataAt(s.data, r).Arr? || exists i :: 0 <= i < |DataAt(s.data, r).items| && Nullish(DataAt(s.data, r).items[i]))
  {
  }

  /** Fetch stores `data || []` under the resource; fetch-by-id stores `data` under `resource + "ById"`. */
  lemma FetchStoresUnderKey(s: State, r: string, d: Value)
    ensures Reduce(s, FetchFulfilled(r, d)).Next?
    ensures DataAt(Reduce(s, FetchFulfilled(r, d)).state.data, r) == if Truthy(d) then d else Arr([])
    ensures Reduce(s, FetchFulfilled(r, d)).state.status == Succeeded
    ensures Reduce(s, FetchByIdFulfilled(r, d)).Next?
    ensures DataAt(Reduce(s, FetchByIdFulfilled(r, d)).state.data, r + "ById") == d
    ensures forall k :: k != r + "ById" ==> DataAt(Reduce(s, FetchByIdFulfilled(r, d)).state.data, k) == DataAt(s.data, k)
  {
  }

  /** Rejections record the payload (fetch-by-id: or "Something went wrong") and set "failed". */
  lemma RejectedRecordsError(s: State, a: Action)
    requires a.RegisterRejected? || a.CommitteeRejected? || a.LoginRejected?
          || a.FetchRejected? || a.CreateRejected? || a.FetchByIdRejected?
    ensures Reduce(s, a).Next?
    ensures Reduce(s, a).state.status == Failed
    ensures Reduce(s, a).state.error ==
              if a.FetchByIdRejected? && !Truthy(a.payload) then Str("Something went wrong") else a.payload
    ensures Reduce(s, a).state.data == s.data && Reduce(s, a).state.user == s.user
  {
  }

  /** Login stores the user; logout clears it and returns to "idle". */
  lemma LoginAndLogout(s: State, d: Value, m: Value)
    ensures Reduce(s, LoginFulfilled(d, m)) == Next(s.(user := d, message := m, status := Succeeded))
    ensures Reduce(s, LogoutFulfilled) == Next(s.(user := Null, status := Idle))
  {
  }
}
