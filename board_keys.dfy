/** The React Query keys of src/features/board/hooks/useBoards.ts and the
    keys each mutation invalidates. A key is an array; invalidating with a
    key marks every cached query whose key starts with it. */
module BoardKeys {
  import opened Common

  /** A JavaScript number as used for board ids: `Number(id)` can be NaN. */
  datatype JsNumber = Num(n: int) | NaN

  /** `!!x` on a number: false for 0 and NaN. */
  predicate NumberTruthy(x: JsNumber) {
    x.Num? && x.n != 0
  }

  /** `Number(s)` for a route parameter: `undefined` is NaN, the empty string
      is 0, a string of decimal digits is its value; any other string is
      taken as NaN (see README). */
  function ToNumber(s: Option<string>): JsNumber {
    if s.None? then NaN
    else if s.value == "" then Num(0)
    else if forall i :: 0 <= i < |s.value| ==> '0' <= s.value[i] <= '9' then Num(DigitsValue(s.value))
    else NaN
  }

  /** `PaginationParams`, with the `category` field the list page adds. */
  datatype ListParams = ListParams(page: Option<int>, size: Option<int>, category: Option<string>)

  const NoParams := ListParams(None, None, None)

  datatype KeyPart = Text(s: string) | Params(p: ListParams) | Id(id: JsNumber)

  type QueryKey = seq<KeyPart>

  function All(): QueryKey { [Text("boards")] }
  function Lists(): QueryKey { All() + [Text("list")] }
  function List(p: ListParams): QueryKey { Lists() + [Params(p)] }
  function Details(): QueryKey { All() + [Text("detail")] }
  function Detail(id: JsNumber): QueryKey { Details() + [Id(id)] }
  function Categories(): QueryKey { All() + [Text("categories")] }

  predicate IsPrefix(a: QueryKey, b: QueryKey) {
    |a| <= |b| && b[..|a|] == a
  }

  predicate IsProperPrefix(a: QueryKey, b: QueryKey) {
    IsPrefix(a, b) && |a| < |b|
  }

  /** Every key starts with `'boards'`; `lists()` is a proper prefix of every
      `list(p)`, `details()` of every `detail(id)`; the three families differ
      in their second element, so no key of one family is a prefix of a key
      of another. */
  lemma KeyHierarchy(p: ListParams, id: JsNumber)
    ensures forall k :: k in {Lists(), List(p), Details(), Detail(id), Categories()} ==> IsProperPrefix(All(), k)
    ensures IsProperPrefix(Lists(), List(p)) && IsProperPrefix(Details(), Detail(id))
    ensures !IsPrefix(Lists(), Detail(id)) && !IsPrefix(Lists(), Categories())
    ensures !IsPrefix(Details(), List(p)) && !IsPrefix(Details(), Categories())
    ensures !IsPrefix(Categories(), List(p)) && !IsPrefix(Categories(), Detail(id))
  {
    assert List(p)[1] == Text("list") && Detail(id)[1] == Text("detail") && Categories()[1] == Text("categories");
  }

  /** `useBoards(params)`: the list key, with `{}` when no params are given. */
  function UseBoardsKey(params: Option<ListParams>): (k: QueryKey)
    ensures IsProperPrefix(Lists(), k) && |k| == 3
    ensures params.None? ==> k[2] == Params(NoParams)
    ensures params.Some? ==> k[2] == Params(params.value)
  {
    List(params.GetOr(NoParams))
  }

  /** `enabled: !!id` of `useBoard`. */
  predicate UseBoardEnabled(id: JsNumber) {
    NumberTruthy(id)
  }

  /** The detail query stays disabled for id 0 and for NaN, which is what a
      missing or empty route parameter gives. */
  lemma DetailQueryDisabled(id: JsNumber, param: Option<string>)
    ensures !UseBoardEnabled(id) <==> id == Num(0) || id == NaN
    ensures param.None? || param == Some("") ==> !UseBoardEnabled(ToNumber(param))
  {
  }

  /** The keys handed to `invalidateQueries` on success. */
  function CreateInvalidates(): seq<QueryKey> { [Lists()] }
  function UpdateInvalidates(id: int): seq<QueryKey> { [Lists(), Detail(Num(id))] }
  function DeleteInvalidates(): seq<QueryKey> { [Lists()] }

  predicate Invalidated(filters: seq<QueryKey>, key: QueryKey) {
    exists f :: f in filters && IsPrefix(f, key)
  }

  /** Create and delete refresh every list and nothing else; update refreshes
      every list and the detail of the updated board only. */
  lemma InvalidationSets(p: ListParams, id: int, other: JsNumber)
    requires other != Num(id)
    ensures Invalidated(CreateInvalidates(), List(p)) && Invalidated(DeleteInvalidates(), List(p))
    ensures !Invalidated(CreateInvalidates(), Detail(other)) && !Invalidated(DeleteInvalidates(), Detail(other))
    ensures !Invalidated(CreateInvalidates(), Categories()) && !Invalidated(DeleteInvalidates(), Categories())
    ensures Invalidated(UpdateInvalidates(id), List(p)) && Invalidated(UpdateInvalidates(id), Detail(Num(id)))
    ensures !Invalidated(UpdateInvalidates(id), Detail(other)) && !Invalidated(UpdateInvalidates(id), Categories())
  {
    KeyHierarchy(p, other);
    assert Lists() in CreateInvalidates() && Lists() in UpdateInvalidates(id) && Lists() in DeleteInvalidates();
    assert Detail(Num(id)) in UpdateInvalidates(id);
    assert Detail(other)[2] == Id(other);
    assert !IsPrefix(Detail(Num(id)), Detail(other));
    assert Categories()[1] == Text("categories");
  }
}
