/**
 The offset pagination of the drivers and qualifying endpoints: request
 `offset = 0, 100, 200, ...` and extend the collected data with each page
 until the first empty page comes back.
 */
module Pagination {
  import opened Common

  /** The `limit` of every paginated request and the step of `offset`. */
  const PageSize: nat := 100

  /**
   A paginated endpoint as the server's answers: `pages[k]` is the response
   to `offset = PageSize * k`; every offset past the listed pages answers an
   empty page (the server's data is finite).
   */
  datatype Endpoint<T> = Endpoint(pages: seq<seq<T>>) {
    /** The page the server returns for a request with this offset. */
    function At(offset: nat): seq<T>
    {
      PageAt(pages, offset)
    }
  }

  /** Walks the pages one `PageSize` step at a time; an offset between two steps answers nothing. */
  function PageAt<T>(pages: seq<seq<T>>, offset: nat): seq<T>
    decreases |pages|
  {
    if |pages| == 0 then []
    else if offset == 0 then pages[0]
    else if offset < PageSize then []
    else PageAt(pages[1..], offset - PageSize)
  }

  /** The response at the k-th multiple of the page size is the k-th listed page. */
  lemma {:induction false} AtMultiple<T>(api: Endpoint<T>, k: nat)
    ensures api.At(PageSize * k) == if k < |api.pages| then api.pages[k] else []
    decreases k
  {
    if k > 0 && |api.pages| > 0 {
      AtMultiple(Endpoint(api.pages[1..]), k - 1);
      assert PageSize * k - PageSize == PageSize * (k - 1);
    }
  }

  /** The index of the first empty page, or the number of pages when none is empty. */
  function FirstEmpty<T>(pages: seq<seq<T>>): (n: nat)
    ensures n <= |pages|
    ensures forall i :: 0 <= i < n ==> pages[i] != []
    ensures n < |pages| ==> pages[n] == []
  {
    if |pages| == 0 || pages[0] == [] then 0 else 1 + FirstEmpty(pages[1..])
  }

  /**
   Everything the pagination loop accumulates: the pages before the first
   empty one, in order. An empty first page gives nothing; when no page is
   empty, every page is collected.
   */
  function Collect<T>(api: Endpoint<T>): (data: seq<T>)
    ensures |api.pages| == 0 || api.pages[0] == [] ==> data == []
    ensures (forall k :: 0 <= k < |api.pages| ==> api.pages[k] != []) ==> data == Flatten(api.pages)
    ensures |data| == TotalLength(api.pages[..FirstEmpty(api.pages)])
  {
    var n := FirstEmpty(api.pages);
    assert n == |api.pages| ==> api.pages[..n] == api.pages;
    FlattenLength(api.pages[..n]);
    Flatten(api.pages[..n])
  }

  /**
   The `while True` loop of the drivers and qualifying tasks. Returns the
   accumulated data and, for the record, the offsets it requested in order.
   */
  method Paginate<T>(api: Endpoint<T>) returns (data: seq<T>, requested: seq<nat>)
    ensures |requested| >= 1
    ensures forall i :: 0 <= i < |requested| ==> requested[i] == PageSize * i
    ensures forall i, j :: 0 <= i < j < |requested| ==> requested[i] < requested[j]
    ensures forall i :: 0 <= i < |requested| - 1 ==> api.At(requested[i]) != []
    ensures api.At(requested[|requested| - 1]) == []
    ensures data == Flatten(seq(|requested| - 1, i requires 0 <= i < |requested| - 1 => api.At(requested[i])))
    ensures data == Collect(api)
  {
    data := [];
    requested := [];
    var offset: nat := 0;
    while true
      invariant offset == PageSize * |requested|
      invariant |requested| <= |api.pages|
      invariant forall i :: 0 <= i < |requested| ==> requested[i] == PageSize * i
      invariant forall i :: 0 <= i < |requested| ==> api.pages[i] != []
      invariant data == Flatten(api.pages[..|requested|])
      decreases |api.pages| - |requested|
    {
      AtMultiple(api, |requested|);
      var page := api.At(offset);
      if page == [] {
        requested := requested + [offset];
        break;
      }
      assert api.pages[..|requested| + 1] == api.pages[..|requested|] + [page];
      FlattenSnoc(api.pages[..|requested|], page);
      data := data + page;
      requested := requested + [offset];
      offset := offset + PageSize;
    }
    var n := |requested| - 1;
    forall i | 0 <= i < n
      ensures api.At(requested[i]) == api.pages[i]
    {
      AtMultiple(api, i);
    }
    assert seq(n, i requires 0 <= i < n => api.At(requested[i])) == api.pages[..n];
    FirstEmptyIsFirst(api.pages, n);
  }

  /** Any index whose earlier pages are all non-empty and whose own page is empty (or past the end) is the first empty one. */
  lemma {:induction false} FirstEmptyIsFirst<T>(pages: seq<seq<T>>, n: nat)
    requires n <= |pages|
    requires forall i :: 0 <= i < n ==> pages[i] != []
    requires n < |pages| ==> pages[n] == []
    ensures FirstEmpty(pages) == n
  {
    if n > 0 {
      FirstEmptyIsFirst(pages[1..], n - 1);
    }
  }

  /**
   The server the endpoint really is: a fixed list served in windows of
   `PageSize` starting at each offset.
   */
  function Windowed<T>(items: seq<T>): (pages: seq<seq<T>>)
    ensures forall k :: 0 <= k < |pages| ==> pages[k] != []
    decreases |items|
  {
    if |items| == 0 then []
    else if |items| <= PageSize then [items]
    else [items[..PageSize]] + Windowed(items[PageSize..])
  }

  /** Against a server that serves a fixed list in windows, pagination returns exactly that list. */
  lemma {:induction false} CollectWindowed<T>(items: seq<T>)
    ensures Collect(Endpoint(Windowed(items))) == items
    decreases |items|
  {
    var pages := Windowed(items);
    FirstEmptyIsFirst(pages, |pages|);
    assert pages[..|pages|] == pages;
    FlattenWindowed(items);
  }

  lemma {:induction false} FlattenWindowed<T>(items: seq<T>)
    ensures Flatten(Windowed(items)) == items
    decreases |items|
  {
    if |items| == 0 {
    } else if |items| <= PageSize {
      FlattenSingleton(items);
    } else {
      var head := items[..PageSize];
      var tail := items[PageSize..];
      assert Windowed(items) == [head] + Windowed(tail);
      FlattenWindowed(tail);
      FlattenAppend([head], Windowed(tail));
      FlattenSingleton(head);
      assert items == head + tail;
    }
  }
}
