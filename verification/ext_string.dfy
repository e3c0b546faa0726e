/**
 The growable string buffer (`zomphp_extensible_string`): a character block
 and the capacity it was allocated with.
 */
module ExtStrings {
  import opened Wrappers
  import opened CStrings

  /** Initial capacity, and the least amount a full buffer grows by. */
  const DELTA_INCR: nat := 100

  /** What a freshly allocated block holds before anything is copied into it (unspecified in C). */
  const UNSET: char := '?'

  datatype ExtString = ExtString(data: seq<char>, capacity: nat)

  predicate Valid(b: ExtString)
  {
    b.capacity > 0 && |b.data| == b.capacity
  }

  /** `new_zomphp_extensible_string`: an empty block of DELTA_INCR characters, or NULL. */
  function NewExtString(ok: bool): (r: Option<ExtString>)
    ensures r.Some? <==> ok
    ensures r.Some? ==> Valid(r.value) && r.value.capacity == DELTA_INCR
  {
    if ok then Some(ExtString(seq(DELTA_INCR, _ => UNSET), DELTA_INCR)) else None
  }

  /** The state of the copying loop: the buffer and the write position `current_pos`. */
  datatype Progress = Progress(buf: ExtString, pos: nat)

  /** `memcpy(data + pos, piece, |piece|)`. */
  function Write(b: ExtString, pos: nat, piece: CString): (r: ExtString)
    requires pos + |piece| <= |b.data|
    ensures r.capacity == b.capacity && |r.data| == |b.data|
    ensures r.data[..pos] == b.data[..pos] && r.data[pos..pos + |piece|] == piece
    ensures r.data[..pos + |piece|] == b.data[..pos] + piece
  {
    b.(data := b.data[..pos] + piece + b.data[pos + |piece|..])
  }

  function Max(a: nat, b: nat): nat
  {
    if a > b then a else b
  }

  /**
   Growth before a piece that would not leave room for a terminator: the capacity
   grows by max(|piece|, DELTA_INCR) and the first `pos` characters move to the
   new block. Afterwards the piece and a terminator fit.
   */
  function Grow(b: ExtString, pos: nat, piece: CString): (r: ExtString)
    requires Valid(b) && pos < b.capacity
    ensures r.capacity == b.capacity + Max(|piece|, DELTA_INCR)
    ensures Valid(r) && r.data[..pos] == b.data[..pos]
    ensures pos + |piece| < r.capacity
  {
    var capacity := b.capacity + Max(|piece|, DELTA_INCR);
    ExtString(b.data[..pos] + seq(capacity - pos, _ => UNSET), capacity)
  }

  /**
   The loop of `zomphp_extensible_strcat` from write position `pos`, one piece per
   step. `ok` says whether the allocator grants what this call asks for.
   */
  function Append(b: ExtString, pos: nat, pieces: seq<CString>, ok: bool): (r: Option<Progress>)
    requires Valid(b) && pos < b.capacity
    ensures AppendPost(b, pos, pieces, ok, r)
    decreases |pieces|
  {
    if pieces == [] then Some(Progress(b, pos))
    else
      var piece := pieces[0];
      if pos + |piece| >= b.capacity && !ok then None
      else
        var room := if pos + |piece| >= b.capacity then Grow(b, pos, piece) else b;
        var r := Append(Write(room, pos, piece), pos + |piece|, pieces[1..], ok);
        AppendStep(b, room, pos, pieces, ok, r);
        r
  }

  /** What the copying loop guarantees once it has written `pieces` from `pos`. */
  predicate AppendPost(b: ExtString, pos: nat, pieces: seq<CString>, ok: bool, r: Option<Progress>)
  {
    && (r.None? <==> !ok && pos + |Concat(pieces)| >= b.capacity)
    && (r.Some? ==>
      && Valid(r.value.buf)
      && r.value.pos == pos + |Concat(pieces)| < r.value.buf.capacity
      && pos <= |b.data| && pos <= |r.value.buf.data|
      && r.value.buf.data[..pos] == b.data[..pos]
      && r.value.buf.data[pos..r.value.pos] == Concat(pieces)
      && b.capacity <= r.value.buf.capacity <= b.capacity + |Concat(pieces)| + DELTA_INCR * |pieces|
      && (pos + |Concat(pieces)| < b.capacity ==> r.value.buf.capacity == b.capacity))
  }

  /** One iteration of the copying loop carries its guarantee from the rest of the pieces to all of them. */
  lemma AppendStep(b: ExtString, room: ExtString, pos: nat, pieces: seq<CString>, ok: bool, r: Option<Progress>)
    requires Valid(b) && pos < b.capacity && pieces != []
    requires pos + |pieces[0]| >= b.capacity ==> ok && room == Grow(b, pos, pieces[0])
    requires pos + |pieces[0]| < b.capacity ==> room == b
    requires AppendPost(Write(room, pos, pieces[0]), pos + |pieces[0]|, pieces[1..], ok, r)
    ensures AppendPost(b, pos, pieces, ok, r)
  {
    assert Concat(pieces) == pieces[0] + Concat(pieces[1..]);
    if r.Some? {
      AppendStepData(b, room, pos, pieces, r.value);
    }
  }

  /** The characters side of `AppendStep`: the prefix is kept and the first piece lands before the rest. */
  lemma AppendStepData(b: ExtString, room: ExtString, pos: nat, pieces: seq<CString>, p: Progress)
    requires pieces != [] && pos + |pieces[0]| <= |room.data| && pos <= |b.data|
    requires room.data[..pos] == b.data[..pos]
    requires
      var q := pos + |pieces[0]|;
      && q <= p.pos <= |p.buf.data|
      && p.buf.data[..q] == Write(room, pos, pieces[0]).data[..q]
      && p.buf.data[q..p.pos] == Concat(pieces[1..])
    ensures p.buf.data[..pos] == b.data[..pos]
    ensures p.buf.data[pos..p.pos] == Concat(pieces)
  {
    var piece := pieces[0];
    var mid := Write(room, pos, piece);
    var d := p.buf.data;
    var q := pos + |piece|;
    assert Concat(pieces) == piece + Concat(pieces[1..]);
    assert d[..pos] == d[..q][..pos] == mid.data[..q][..pos] == room.data[..pos];
    assert d[pos..p.pos] == d[pos..q] + d[q..p.pos];
    assert d[pos..q] == d[..q][pos..q] == mid.data[..q][pos..q] == piece;
  }

  /**
   `zomphp_extensible_strcat`: write the concatenation of `pieces` from position 0
   and NUL-terminate it. A NULL buffer, or a refused allocation (which frees the
   buffer), yields NULL.
   */
  function Strcat(b: Option<ExtString>, pieces: seq<CString>, ok: bool): (r: Option<ExtString>)
    requires b.Some? ==> Valid(b.value)
    ensures b.None? ==> r.None?
    ensures b.Some? ==> (r.None? <==> !ok && |Concat(pieces)| >= b.value.capacity)
    ensures r.Some? ==>
      && Valid(r.value)
      && |Concat(pieces)| < r.value.capacity
      && r.value.data[..|Concat(pieces)|] == Concat(pieces)
      && r.value.data[|Concat(pieces)|] == NUL
      && UpToNul(r.value.data) == Concat(pieces)
      && b.value.capacity <= r.value.capacity <= b.value.capacity + |Concat(pieces)| + DELTA_INCR * |pieces|
      && (|Concat(pieces)| < b.value.capacity ==> r.value.capacity == b.value.capacity)
  {
    if b.None? then None
    else match Append(b.value, 0, pieces, ok) {
      case None => None
      case Some(p) =>
        var out := p.buf.(data := p.buf.data[p.pos := NUL]);
        assert out.data[..p.pos] == p.buf.data[..p.pos];
        UpToNulOfTerminated(out.data, Concat(pieces));
        Some(out)
    }
  }
}
