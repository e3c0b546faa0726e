/**
 The pending queue: a head/tail singly-linked list of owned strings.
 Elements are kept in an arena indexed by address in allocation order;
 the `next`, `head` and `tail` pointers are modelled explicitly.
 */
module StringLists {
  import opened Wrappers
  import opened CStrings

  /** One list element: an owned copy of a string and the address of its successor. */
  datatype Element = Element(data: CString, next: Option<nat>)

  datatype StringList = StringList(elements: seq<Element>, head: Option<nat>, tail: Option<nat>)

  /** Each element links to the one allocated after it; the last links nowhere. */
  predicate Linked(els: seq<Element>)
  {
    forall i :: 0 <= i < |els| ==> els[i].next == (if i + 1 < |els| then Some(i + 1) else None)
  }

  /**
   Head/tail consistency: the list is empty exactly when `head` is NULL,
   `head` is the first element and `tail` the last.
   */
  predicate Valid(sl: StringList)
  {
    && Linked(sl.elements)
    && (sl.head.None? <==> sl.elements == [])
    && (sl.tail.None? <==> sl.elements == [])
    && (sl.head.Some? ==> sl.head.value == 0)
    && (sl.tail.Some? ==> sl.tail.value == |sl.elements| - 1)
  }

  /** The strings held by a run of elements, in order. */
  function Datas(els: seq<Element>): seq<CString>
  {
    if els == [] then [] else [els[0].data] + Datas(els[1..])
  }

  /** The queued strings, oldest first. */
  function Contents(sl: StringList): seq<CString>
  {
    Datas(sl.elements)
  }

  /** `new_string_list`: an empty list, or NULL when the allocation is refused. */
  function NewStringList(ok: bool): (r: Option<StringList>)
    ensures r.Some? <==> ok
    ensures r.Some? ==> Valid(r.value) && Contents(r.value) == [] && r.value.head.None? && r.value.tail.None?
  {
    if ok then Some(StringList([], None, None)) else None
  }

  /**
   `add_string_to_string_list`: append an owned copy of `s` at the tail.
   A NULL list, a NULL string or a refused allocation leaves the list as it was.
   */
  function AddString(sl: Option<StringList>, s: Option<CString>, ok: bool): (r: Option<StringList>)
    requires sl.Some? ==> Valid(sl.value)
    ensures sl.None? || s.None? || !ok ==> r == sl
    ensures sl.Some? && s.Some? && ok ==>
      && r.Some? && Valid(r.value)
      && Contents(r.value) == Contents(sl.value) + [s.value]
      && r.value.elements[r.value.tail.value].data == s.value
      && (sl.value.head.Some? ==> r.value.head == sl.value.head)
  {
    if sl.None? || s.None? || !ok then sl
    else
      var l := sl.value;
      var n := |l.elements|;
      var el := Element(s.value, None);
      if l.head.None? then
        assert l.elements + [el] == [el];
        assert Datas([el]) == [el.data] + Datas([]);
        Some(StringList(l.elements + [el], Some(n), Some(n)))
      else
        var t := l.tail.value;
        var relinked := l.elements[t := l.elements[t].(next := Some(n))];
        DatasSnoc(l.elements, relinked, el);
        Some(StringList(relinked + [el], l.head, Some(n)))
  }

  /** Rewriting pointers does not change the data a run of elements holds. */
  lemma {:induction false} DatasSnoc(els: seq<Element>, relinked: seq<Element>, el: Element)
    requires |relinked| == |els|
    requires forall i :: 0 <= i < |els| ==> relinked[i].data == els[i].data
    ensures Datas(relinked + [el]) == Datas(els) + [el.data]
    decreases |els|
  {
    if els != [] {
      assert (relinked + [el])[1..] == relinked[1..] + [el];
      DatasSnoc(els[1..], relinked[1..], el);
    }
  }

  /**
   The loop of `free_and_process_string_list` from the element at address `p`:
   hand `data` to the callback, then follow `next`.
   */
  function Walk(els: seq<Element>, p: nat): (log: seq<CString>)
    requires Linked(els) && p < |els|
    ensures log == Datas(els[p..])
    decreases |els| - p
  {
    assert els[p..][1..] == els[p + 1..];
    [els[p].data] + match els[p].next {
      case None => []
      case Some(q) => Walk(els, q)
    }
  }

  /**
   `free_and_process_string_list`: the strings handed to the callback, in
   call order. Without a callback (or for a NULL list) nothing is handed on.
   */
  function Drain(sl: Option<StringList>, callback: bool): (log: seq<CString>)
    requires sl.Some? ==> Valid(sl.value)
    ensures log == (if sl.Some? && callback then Contents(sl.value) else [])
  {
    if sl.None? || !callback then []
    else match sl.value.head {
      case None => []
      case Some(h) => Walk(sl.value.elements, h)
    }
  }
}
