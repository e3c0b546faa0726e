/**
 The per-process call-site inventory (`zomphp_data`): a three-level store
 file -> function -> line -> hit count, the queue of records not yet reported,
 the scratch buffer records are built in, the time of the last flush and the
 one-entry last-seen cache.
 */
module ZomData {
  import opened Wrappers
  import opened CStrings
  import Decimal
  import StringLists
  import ExtStrings

  /** Seconds between two automatic flushes. */
  const FLUSH_DELAY: int := 300
  const INT_MAX: int := 0x7fff_ffff
  const INT_MIN: int := -0x8000_0000
  /** Size of the line-number buffer: ceil(log10(INT_MAX)) + 2. */
  const LINE_BUFFER_LENGTH: nat := 12
  const INTRA_DELIMITER: CString := ":"
  const ITEM_DELIMITER: CString := "\n"

  /** Lines of one function, keyed by their decimal form, with hit counts. */
  type Lines = map<CString, int>
  type Functions = map<CString, Lines>
  type Store = map<CString, Functions>

  /** A call site as the store keys it: file, function, decimal line. */
  datatype Site = Site(file: CString, func: CString, line: CString)

  datatype State = State(
    files: Store,
    newData: Option<StringLists.StringList>,
    buffer: Option<ExtStrings.ExtString>,
    lastFlush: int,
    lastFile: Option<CString>,
    lastFunc: Option<CString>,
    lastLine: Option<CString>)

  /** Line numbers above INT_MAX are recorded as INT_MAX. */
  function Clamp(lineno: int): int
  {
    if lineno > INT_MAX then INT_MAX else lineno
  }

  function SiteOf(file: CString, func: CString, lineno: int): Site
  {
    Site(file, func, Decimal.Decimal(Clamp(lineno)))
  }

  function LineCount(lines: Lines, line: CString): Option<int>
  {
    if line in lines then Some(lines[line]) else None
  }

  /** The hit count the store holds for a site, if it holds the site at all. */
  function Count(files: Store, s: Site): Option<int>
  {
    if s.file in files && s.func in files[s.file] && s.line in files[s.file][s.func]
    then Some(files[s.file][s.func][s.line])
    else None
  }

  /** The hit count of a site, 0 for a site the store does not hold. */
  function Hits(files: Store, s: Site): int
  {
    if Seen(files, s) then Count(files, s).value else 0
  }

  predicate Seen(files: Store, s: Site)
  {
    Count(files, s).Some?
  }

  /** The pieces a record is built from. */
  function RecordPieces(s: Site): seq<CString>
  {
    [s.file, INTRA_DELIMITER, s.func, INTRA_DELIMITER, s.line, ITEM_DELIMITER]
  }

  /** The record queued for a newly seen site. */
  function Record(s: Site): CString
  {
    Concat(RecordPieces(s))
  }

  /** The strings waiting in a (possibly NULL) queue, oldest first. */
  function Pending(q: Option<StringLists.StringList>): seq<CString>
  {
    if q.Some? then StringLists.Contents(q.value) else []
  }

  /** The parts of the state every operation relies on: sound queue and buffer, and cache pointers into the store. */
  predicate WellFormed(st: State)
  {
    && (st.newData.Some? ==> StringLists.Valid(st.newData.value))
    && (st.buffer.Some? ==> ExtStrings.Valid(st.buffer.value))
    && (st.lastFile.Some? ==> st.lastFile.value in st.files)
    && (st.lastFunc.Some? ==> st.lastFile.Some? && st.lastFunc.value in st.files[st.lastFile.value])
    && (st.lastLine.Some? ==> st.lastFunc.Some?)
  }

  /** Every recorded hit count lies between 1 and INT_MAX. */
  predicate CountsInRange(files: Store)
  {
    forall f, g, l :: f in files && g in files[f] && l in files[f][g] ==> 1 <= files[f][g][l] <= INT_MAX
  }

  /**
   The invariant of the corrected store: on top of `WellFormed`, the cached line
   is a line of the store, so the cache never claims a site the store lacks.
   */
  predicate Valid(st: State)
  {
    && WellFormed(st)
    && (st.lastLine.Some? ==> Seen(st.files, Site(st.lastFile.value, st.lastFunc.value, st.lastLine.value)))
    && CountsInRange(st.files)
  }

  /**
   `new_zomphp_data`: an empty store and queue, a fresh buffer, no cached site and
   the flush clock set to `now`; NULL when any allocation is refused.
   */
  function NewData(ok: bool, now: int): (r: Option<State>)
    ensures r.Some? <==> ok
    ensures r.Some? ==>
      && Valid(r.value)
      && r.value.files == map[]
      && r.value.newData.Some? && Pending(r.value.newData) == []
      && r.value.buffer.Some?
      && r.value.lastFlush == now
      && r.value.lastFile.None? && r.value.lastFunc.None? && r.value.lastLine.None?
  {
    var newData := StringLists.NewStringList(ok);
    var buffer := ExtStrings.NewExtString(ok);
    if !ok then None
    else Some(State(map[], newData, buffer, now, None, None, None))
  }

  /**
   The store with `lines` as the line table of `func` in `file`, creating the
   file and function entries when absent (lines 287-291, 300-304).
   */
  function Put(files: Store, file: CString, func: CString, lines: Lines): (r: Store)
    ensures r.Keys == files.Keys + {file}
    ensures forall t :: Count(r, t) == (if t.file == file && t.func == func then LineCount(lines, t.line) else Count(files, t))
    ensures CountsInRange(files) && (forall l :: l in lines ==> 1 <= lines[l] <= INT_MAX) ==> CountsInRange(r)
    ensures func in r[file]
    ensures NoLines(files) && lines == map[] ==> NoLines(r)
  {
    var fileEntry: Functions := if file in files then files[file] else map[];
    files[file := fileEntry[func := lines]]
  }

  /**
   Lines 313-315 and 325-327: a line's count starts at 0 when it is created and
   goes up by one per call, saturating at INT_MAX.
   */
  function Hit(lines: Lines, line: CString): (r: Lines)
    ensures
      var prior := if line in lines then lines[line] else 0;
      LineCount(r, line) == Some(if prior < INT_MAX then prior + 1 else prior)
    ensures forall l :: l != line ==> LineCount(r, l) == LineCount(lines, l)
    ensures (forall l :: l in lines ==> 1 <= lines[l] <= INT_MAX) ==> (forall l :: l in r ==> 1 <= r[l] <= INT_MAX)
  {
    var prior := if line in lines then lines[line] else 0;
    lines[line := if prior < INT_MAX then prior + 1 else prior]
  }

  /** What the lookup part of a call finds: the file's and function's entries and whether the line is known. */
  datatype Found = Found(fileEntry: Functions, funcEntry: Lines, known: bool)

  /**
   Lines 282-312: take the cached file, function and line when the names match
   the previous call (each level only if the levels above matched), otherwise
   look them up, with empty entries for a file or function not seen before.
   */
  function Lookup(st: State, file: CString, func: CString, line: CString): (r: Found)
    requires WellFormed(st)
    ensures r.fileEntry == if file in st.files then st.files[file] else map[]
    ensures r.funcEntry == if func in r.fileEntry then r.fileEntry[func] else map[]
    ensures forall l :: LineCount(r.funcEntry, l) == Count(st.files, Site(file, func, l))
    ensures r.known <==>
      || line in r.funcEntry
      || (st.lastFile == Some(file) && st.lastFunc == Some(func) && st.lastLine == Some(line))
  {
    var sameFile := st.lastFile == Some(file);
    var fileEntry: Functions :=
      if sameFile then st.files[file]
      else if file in st.files then st.files[file]
      else map[];
    var sameFunc := sameFile && st.lastFunc == Some(func);
    var funcEntry: Lines :=
      if sameFunc then fileEntry[func]
      else if func in fileEntry then fileEntry[func]
      else map[];
    var sameLine := sameFunc && st.lastLine == Some(line);
    Found(fileEntry, funcEntry, sameLine || line in funcEntry)
  }

  /** The queue and the buffer after a record has been built and pushed. */
  datatype Queued = Queued(newData: Option<StringLists.StringList>, buffer: Option<ExtStrings.ExtString>)

  /**
   Lines 318-320: build the record for a new site in the buffer, then push a
   copy of the buffer's string onto the queue when both the queue and the
   buffer are there. A refused growth frees the buffer for good; a refused
   element allocation drops the record.
   */
  function Enqueue(newData: Option<StringLists.StringList>, buffer: Option<ExtStrings.ExtString>, s: Site, growOk: bool, pushOk: bool): (r: Queued)
    requires newData.Some? ==> StringLists.Valid(newData.value)
    requires buffer.Some? ==> ExtStrings.Valid(buffer.value)
    ensures r.newData.Some? ==> StringLists.Valid(r.newData.value)
    ensures r.buffer.Some? ==> ExtStrings.Valid(r.buffer.value)
    ensures r.buffer.None? <==> buffer.None? || (!growOk && |Record(s)| >= buffer.value.capacity)
    ensures Pending(r.newData) == Pending(newData) + (if newData.Some? && r.buffer.Some? && pushOk then [Record(s)] else [])
    ensures r.newData.Some? <==> newData.Some?
  {
    var built := ExtStrings.Strcat(buffer, RecordPieces(s), growOk);
    if newData.Some? && built.Some?
    then Queued(StringLists.AddString(newData, Some(UpToNul(built.value.data)), pushOk), built)
    else Queued(newData, built)
  }

  /**
   The store after a call to `line` of `func` in `file` (lines 282-316, 325-327):
   the function's line table gains or bumps the line when `storeLine` holds and
   is put back unchanged otherwise; no other site changes.
   */
  function StoreCall(st: State, s: Site, storeLine: bool): (r: Store)
    requires WellFormed(st)
    ensures r.Keys == st.files.Keys + {s.file}
    ensures s.func in r[s.file]
    ensures forall t :: t != s ==> Count(r, t) == Count(st.files, t)
    ensures storeLine && CountsInRange(st.files) ==>
      var prior := Hits(st.files, s);
      Count(r, s) == Some(if prior < INT_MAX then prior + 1 else INT_MAX)
    ensures !storeLine ==> Count(r, s) == Count(st.files, s)
    ensures storeLine && CountsInRange(st.files) ==> CountsInRange(r)
    ensures !storeLine && NoLines(st.files) ==> NoLines(r)
  {
    var found := Lookup(st, s.file, s.func, s.line);
    HitCount(st.files, s, found.funcEntry);
    Put(st.files, s.file, s.func, if storeLine then Hit(found.funcEntry, s.line) else found.funcEntry)
  }

  /**
   The queue and buffer after a call (lines 309-323): a line the lookup knows
   leaves them alone, any other has its record built and queued.
   */
  function QueueCall(st: State, s: Site, growOk: bool, pushOk: bool): (r: Queued)
    requires WellFormed(st)
    ensures r.newData.Some? ==> StringLists.Valid(r.newData.value)
    ensures r.buffer.Some? ==> ExtStrings.Valid(r.buffer.value)
    ensures r.newData.Some? <==> st.newData.Some?
    ensures Lookup(st, s.file, s.func, s.line).known ==> r == Queued(st.newData, st.buffer)
    ensures !Lookup(st, s.file, s.func, s.line).known ==>
      && (r.buffer.None? <==> st.buffer.None? || (!growOk && |Record(s)| >= st.buffer.value.capacity))
      && Pending(r.newData) == Pending(st.newData) + (if st.newData.Some? && r.buffer.Some? && pushOk then [Record(s)] else [])
  {
    if Lookup(st, s.file, s.func, s.line).known then Queued(st.newData, st.buffer)
    else Enqueue(st.newData, st.buffer, s, growOk, pushOk)
  }

  /**
   The body of `zomphp_register_function_call` for non-NULL names, on the
   decimal form `line` of the line number. `storeLine` says whether a new line is
   put into its function's line table: the source as written never does (see
   `RecordCallAsWritten`), the corrected store does. `growOk` and `pushOk` say
   whether the allocator grants the buffer growth and the queue element.
   */
  function Step(st: State, s: Site, growOk: bool, pushOk: bool, storeLine: bool): (r: State)
    requires WellFormed(st)
    ensures WellFormed(r)
  {
    var queued := QueueCall(st, s, growOk, pushOk);
    st.(files := StoreCall(st, s, storeLine),
        newData := queued.newData,
        buffer := queued.buffer,
        lastFile := Some(s.file),
        lastFunc := Some(s.func),
        lastLine := Some(s.line))
  }

  /**
   Recording one call in the corrected store. The site ends up in the store with
   its count raised by one (saturating at INT_MAX); no other site changes; the
   cache names the site. A site the store already held queues nothing; a new one
   is built in the buffer and queued as one record, unless the buffer or queue is
   NULL or an allocation is refused.
   */
  function RecordCall(st: State, file: CString, func: CString, lineno: int, growOk: bool, pushOk: bool): (r: State)
    requires Valid(st)
    ensures Valid(r)
    ensures r.lastFile == Some(file) && r.lastFunc == Some(func)
    ensures r.lastLine == Some(SiteOf(file, func, lineno).line)
    ensures
      var prior := Hits(st.files, SiteOf(file, func, lineno));
      Count(r.files, SiteOf(file, func, lineno)) == Some(if prior < INT_MAX then prior + 1 else INT_MAX)
    ensures forall t :: t != SiteOf(file, func, lineno) ==> Count(r.files, t) == Count(st.files, t)
    ensures r.files.Keys == st.files.Keys + {file}
    ensures Seen(st.files, SiteOf(file, func, lineno)) ==> r.newData == st.newData && r.buffer == st.buffer
    ensures !Seen(st.files, SiteOf(file, func, lineno)) ==>
      && (r.buffer.None? <==> st.buffer.None? || (!growOk && |Record(SiteOf(file, func, lineno))| >= st.buffer.value.capacity))
      && Pending(r.newData) == Pending(st.newData) +
           (if st.newData.Some? && r.buffer.Some? && pushOk then [Record(SiteOf(file, func, lineno))] else [])
    ensures r.newData.Some? <==> st.newData.Some?
    ensures r.lastFlush == st.lastFlush
  {
    Step(st, SiteOf(file, func, lineno), growOk, pushOk, true)
  }

  /** Bumping a site's line in a copy of its line table gives the saturated successor of its count. */
  lemma HitCount(files: Store, s: Site, lines: Lines)
    requires forall l :: LineCount(lines, l) == Count(files, Site(s.file, s.func, l))
    ensures CountsInRange(files) ==>
      var prior := Hits(files, s);
      LineCount(Hit(lines, s.line), s.line) == Some(if prior < INT_MAX then prior + 1 else INT_MAX)
  {
    assert LineCount(lines, s.line) == Count(files, s);
  }

  /** The state with the last-seen cache emptied. */
  function WithoutCache(st: State): State
  {
    st.(lastFile := None, lastFunc := None, lastLine := None)
  }

  /**
   The last-seen cache is only a shortcut: in the corrected store, recording a
   call with the cache in place gives the same state as looking everything up.
   */
  lemma CacheIsTransparent(st: State, file: CString, func: CString, lineno: int, growOk: bool, pushOk: bool)
    requires Valid(st)
    ensures Valid(WithoutCache(st))
    ensures RecordCall(st, file, func, lineno, growOk, pushOk) == RecordCall(WithoutCache(st), file, func, lineno, growOk, pushOk)
  {
    var line := Decimal.Decimal(Clamp(lineno));
    assert Lookup(st, file, func, line) == Lookup(WithoutCache(st), file, func, line) by {
      if st.lastFile == Some(file) && st.lastFunc == Some(func) && st.lastLine == Some(line) {
        assert Seen(st.files, Site(file, func, line));
      }
    }
  }

  /** In the source as written no function's line table ever gains an entry. */
  predicate NoLines(files: Store)
  {
    forall f, g :: f in files && g in files[f] ==> files[f][g] == map[]
  }

  /** The invariant the source as written keeps: the cached line is a detached element, not a store entry. */
  predicate ValidAsWritten(st: State)
  {
    WellFormed(st) && NoLines(st.files)
  }

  /**
   Recording one call as lines 309-323 are written: a line missing from its
   function's table is allocated and queued but never added to the table, so
   only the one-entry cache stops a site from being queued again.
   */
  function RecordCallAsWritten(st: State, file: CString, func: CString, lineno: int, growOk: bool, pushOk: bool): (r: State)
    requires ValidAsWritten(st)
    ensures ValidAsWritten(r)
    ensures !Seen(r.files, SiteOf(file, func, lineno))
    ensures r.lastFile == Some(file) && r.lastFunc == Some(func)
    ensures r.lastLine == Some(SiteOf(file, func, lineno).line)
    ensures
      var hit := st.lastFile == Some(file) && st.lastFunc == Some(func) && st.lastLine == Some(SiteOf(file, func, lineno).line);
      && (hit ==> r.newData == st.newData && r.buffer == st.buffer)
      && (!hit ==>
            Pending(r.newData) == Pending(st.newData) +
              (if st.newData.Some? && r.buffer.Some? && pushOk then [Record(SiteOf(file, func, lineno))] else []))
      && (!hit && st.buffer.Some? && growOk ==> r.buffer.Some?)
    ensures r.newData.Some? <==> st.newData.Some?
  {
    Step(st, SiteOf(file, func, lineno), growOk, pushOk, false)
  }

  /** The wire format of a record: `file:function:line` and a newline. */
  lemma RecordFormat(s: Site)
    ensures Record(s) == s.file + ":" + s.func + ":" + s.line + "\n"
  {
    var p := RecordPieces(s);
    assert p[1..][1..][1..][1..][1..][1..] == [];
    assert Concat(p[5..]) == "\n";
    assert Concat(p[4..]) == s.line + "\n";
    assert Concat(p[3..]) == ":" + s.line + "\n";
    assert Concat(p[2..]) == s.func + ":" + s.line + "\n";
    assert Concat(p[1..]) == ":" + s.func + ":" + s.line + "\n";
  }

  /**
   The decimal form of any C int line number, after clamping, fits the
   LINE_BUFFER_LENGTH-character buffer `sprintf` writes it into, terminator included.
   */
  lemma LineFitsBuffer(lineno: int)
    requires INT_MIN <= lineno
    ensures |Decimal.Decimal(Clamp(lineno))| + 1 <= LINE_BUFFER_LENGTH
  {
    var c := Clamp(lineno);
    assert Decimal.Pow10(10) == 10000000000;
    if c < 0 {
      Decimal.DigitsLength(-c, 10);
    } else {
      Decimal.DigitsLength(c, 10);
    }
  }

  /**
   `zomphp_register_function_call`: a NULL state, file name or function name
   makes the call a no-op.
   */
  function Register(zd: Option<State>, filename: Option<CString>, funcname: Option<CString>, lneno: int, growOk: bool, pushOk: bool): (r: Option<State>)
    requires zd.Some? ==> Valid(zd.value)
    ensures zd.None? || filename.None? || funcname.None? ==> r == zd
    ensures zd.Some? && filename.Some? && funcname.Some? ==>
      r.Some? && Seen(r.value.files, SiteOf(filename.value, funcname.value, lneno))
    ensures r.Some? ==> Valid(r.value)
  {
    if zd.None? || filename.None? || funcname.None? then zd
    else Some(RecordCall(zd.value, filename.value, funcname.value, lneno, growOk, pushOk))
  }

  /** The result of a flush: the new state and the strings handed to the reporting callback. */
  datatype Flushed = Flushed(state: State, reported: seq<CString>)

  /**
   `flush_zomphp` for a non-NULL state: every pending record goes to the
   callback in order, the queue is replaced by a new empty one (NULL if that
   allocation is refused) and the clock is stamped. Store, cache and buffer stay.
   */
  function FlushState(st: State, now: int, listOk: bool): (r: Flushed)
    requires WellFormed(st)
    ensures r.reported == Pending(st.newData)
    ensures Pending(r.state.newData) == [] && (r.state.newData.Some? <==> listOk)
    ensures r.state.lastFlush == now
    ensures r.state.files == st.files && r.state.buffer == st.buffer
    ensures r.state.lastFile == st.lastFile && r.state.lastFunc == st.lastFunc && r.state.lastLine == st.lastLine
    ensures Valid(st) ==> Valid(r.state)
  {
    var reported := StringLists.Drain(st.newData, true);
    Flushed(st.(newData := StringLists.NewStringList(listOk), lastFlush := now), reported)
  }

  /** `flush_zomphp`: a NULL state is left alone and nothing is reported. */
  function Flush(zd: Option<State>, now: int, listOk: bool): (r: (Option<State>, seq<CString>))
    requires zd.Some? ==> WellFormed(zd.value)
    ensures zd.None? ==> r == (None, [])
    ensures zd.Some? ==> r.0.Some? && (Valid(zd.value) ==> Valid(r.0.value))
    ensures zd.Some? ==>
      && r.0.Some? && r.1 == Pending(zd.value.newData)
      && Pending(r.0.value.newData) == [] && r.0.value.lastFlush == now
      && r.0.value.files == zd.value.files && r.0.value.buffer == zd.value.buffer
      && r.0.value.lastFile == zd.value.lastFile && r.0.value.lastFunc == zd.value.lastFunc
      && r.0.value.lastLine == zd.value.lastLine
      && (r.0.value.newData.Some? <==> listOk)
  {
    if zd.None? then (None, [])
    else
      var f := FlushState(zd.value, now, listOk);
      (Some(f.state), f.reported)
  }

  /**
   `flush_zomphp_automatic`: flush only when more than FLUSH_DELAY seconds have
   passed since the last flush. The C code reads the clock twice: `now` is the
   reading that decides, and `stamp` is the later reading `flush_zomphp` stores.
   */
  function FlushAutomatic(zd: Option<State>, now: int, stamp: int, listOk: bool): (r: (Option<State>, seq<CString>))
    requires zd.Some? ==> WellFormed(zd.value)
    ensures zd.None? ==> r == (None, [])
    ensures zd.Some? ==> r.0.Some? && (Valid(zd.value) ==> Valid(r.0.value))
    ensures zd.Some? && now - zd.value.lastFlush > FLUSH_DELAY ==>
      && r.0.Some? && r.1 == Pending(zd.value.newData)
      && Pending(r.0.value.newData) == [] && r.0.value.lastFlush == stamp
      && r.0.value.files == zd.value.files && r.0.value.buffer == zd.value.buffer
      && r.0.value.lastFile == zd.value.lastFile && r.0.value.lastFunc == zd.value.lastFunc
      && r.0.value.lastLine == zd.value.lastLine
      && (r.0.value.newData.Some? <==> listOk)
    ensures zd.Some? && now - zd.value.lastFlush <= FLUSH_DELAY ==> r == (zd, [])
  {
    if zd.None? then (None, [])
    else if now - zd.value.lastFlush > FLUSH_DELAY then Flush(zd, stamp, listOk)
    else (zd, [])
  }
}
