# ZomPHP call-site inventory, modelled in Dafny

ZomPHP is an Xdebug extension that tracks which lines of which PHP functions
are executed. Each monitored process keeps a `zomphp_data` inventory with these parts:

- a three-level hash of file → function → line number → hit count;
- a one-entry "last file / last function / last line" cache in front of that hash;
- a queue (`string_list`) of `file:function:line\n` records for call sites seen for the first time;
- a growable scratch buffer (`zomphp_extensible_string`) that the records are built in;
- the time of the last flush.

A flush hands every queued record to the reporting callback and starts a new, empty queue.
An automatic flush does the same, but only once more than `FLUSH_DELAY` (300) seconds have
passed since the last flush.

The model is functional. Every C object is an immutable datatype, and a NULL pointer is
`Option.None`. Each `malloc`/`strdup` whose failure the C code handles becomes a boolean
argument: whether the allocator grants the request. The modules mirror the source sections:

| file | module | source section |
|---|---|---|
| `wrappers.dfy` | `Wrappers` | `Option`, standing in for nullable pointers |
| `cstrings.dfy` | `CStrings` | C strings; `strlen`/`strdup` on a NUL-terminated buffer |
| `decimal.dfy` | `Decimal` | `sprintf("%d")`, which turns a line number into its hash key |
| `string_list.dfy` | `StringLists` | `string_list`: head/tail linked list with explicit `next` pointers |
| `ext_string.dfy` | `ExtStrings` | `zomphp_extensible_string` and `zomphp_extensible_strcat` |
| `zomphp_data.dfy` | `ZomData` | `zomphp_data`: creation, recording a call, flushing |
| `sequences.dfy` | `Sequences` | first-occurrence deduplication and subsequences, used to state run properties |
| `runs.dfy` | `Runs` | whole runs of calls and flushes, plus worked scenarios |

The central properties:

- **Exactly once** (`Runs.ExactlyOnce`): when every allocation is granted, the records handed to
  the callback, followed by those still queued, are the records of the distinct call sites in the
  order they were first called, each exactly once. This holds however the flushes are interleaved.
- **At most once** (`Runs.AtMostOnce`): whatever the allocator answers, that sequence is a
  subsequence of the exactly-once list. A refused allocation can lose a record, but a record is
  never repeated or reordered.

Both properties hold of the corrected registration (`ZomData.RecordCall`). As written, the source
never stores a newly seen line in its function's line table. The as-written behaviour is modelled
separately (`ZomData.RecordCallAsWritten`) and shown to report a site twice (see Findings).

## Model

| member | source | states |
|---|---|---|
| StringLists.NewStringList | xdebug_zomphp.c:19-29 | a new list exists exactly when the allocation is granted; it is empty, with NULL head and tail, and satisfies the head/tail invariant |
| StringLists.AddString | xdebug_zomphp.c:54-79 | a NULL list, a NULL string or a refused allocation leaves the list unchanged; otherwise the list keeps the head/tail invariant, its contents gain exactly the new string at the end, the tail holds that string, and a non-empty list keeps its head |
| StringLists.Walk | xdebug_zomphp.c:35-44 | following the `next` pointers from an element visits exactly the strings stored from that element to the end, in list order |
| StringLists.Drain | xdebug_zomphp.c:31-52 | with a callback, every queued string goes to it once, oldest first; with no callback (`free_string_list`) or a NULL list, nothing is handed on |
| ExtStrings.NewExtString | xdebug_zomphp.c:128-146 | a new buffer exists exactly when both allocations are granted, and has capacity DELTA_INCR (100) |
| ExtStrings.Grow | xdebug_zomphp.c:104-118 | growth adds max(piece length, 100) to the capacity and keeps the characters written so far; afterwards the piece and a terminator fit |
| ExtStrings.Append | xdebug_zomphp.c:99-121 | the copying loop fails exactly when growth is refused and the text reaches the capacity; otherwise it keeps the prefix, writes the concatenated pieces after it, keeps the capacity if the text fits, and grows it by at most the text length plus 100 per piece |
| ExtStrings.Strcat | xdebug_zomphp.c:88-126 | a NULL buffer gives NULL; a refusal gives NULL exactly when the concatenation does not fit the current capacity; otherwise the buffer holds the concatenation followed by NUL, so `strlen`/`strdup` read back exactly the concatenation, and the capacity bounds hold |
| Decimal.DecimalRoundTrip | xdebug_zomphp.c:280 | the `%d` numeral of a line number reads back as that number |
| Decimal.DecimalInjective | xdebug_zomphp.c:280 | two line numbers get the same hash key exactly when they are equal |
| ZomData.LineFitsBuffer | xdebug_zomphp.c:259-280 | for every C `int` line number, once clamped to INT_MAX, the numeral and its terminator fit the 12-character `lineno` buffer |
| ZomData.NewData | xdebug_zomphp.c:196-216 | an inventory exists exactly when every allocation is granted; it has an empty store, an empty queue, a buffer, no cached site and the flush clock at `now`, and satisfies the store invariant |
| ZomData.Put | xdebug_zomphp.c:287-304 | installing a line table creates the file and function entries if they are missing; the counts of that function become the table's, and no other file or function changes |
| ZomData.Lookup | xdebug_zomphp.c:282-312 | the cached file and function entries are the same ones the hash lookups would find; a line counts as known exactly when its function's table holds it or the cache names the same file, function and line |
| ZomData.Enqueue | xdebug_zomphp.c:317-321 | the buffer becomes NULL exactly when it was NULL or a refused growth meets a record that does not fit; the queue gains exactly the one record when the queue and buffer are present and the element allocation is granted, and nothing otherwise |
| ZomData.StoreCall | xdebug_zomphp.c:282-327 | when lines are stored, the site's count rises by one, saturating at INT_MAX, and counts stay in range; otherwise the site's count is unchanged and a store with no lines keeps none; no other site changes |
| ZomData.QueueCall | xdebug_zomphp.c:309-323 | a line the lookup knows leaves the queue and buffer alone; an unknown line queues its record, subject to the buffer and allocation conditions |
| ZomData.RecordCall | xdebug_zomphp.c:264-328 | in the corrected store, recording a call keeps the invariant; it raises the site's count by one, saturating at INT_MAX; it changes no other site; the cache names the site; an already-seen site queues nothing; a new site queues exactly its record unless the queue or buffer is NULL or an allocation is refused |
| ZomData.CacheIsTransparent | xdebug_zomphp.c:282-312 | in the corrected store, the last-seen cache is only a shortcut: the result is the same as with the cache emptied |
| ZomData.RecordCallAsWritten | xdebug_zomphp.c:309-323 | as written, no line ever enters its function's table; a cache hit queues nothing, and a cache miss queues the site's record again, whatever was queued before |
| ZomData.RecordFormat | xdebug_zomphp.c:318 | a record is `file:function:line` followed by a newline |
| ZomData.Register | xdebug_zomphp.c:264-274 | a NULL inventory, file name or function name makes the call a no-op; otherwise, in the corrected store, the site ends up in the store and the invariant holds |
| ZomData.FlushState | xdebug_zomphp.c:238-245 | the callback receives exactly the queued records, in order; the queue starts empty again (NULL when refused); the clock is stamped; the store, cache and buffer are unchanged |
| ZomData.Flush | xdebug_zomphp.c:238-245 | a NULL inventory reports nothing; otherwise the callback receives exactly the queued records, in order, the queue starts empty again (NULL when refused), the clock is stamped, the store, cache and buffer are unchanged, and the invariant holds |
| ZomData.FlushAutomatic | xdebug_zomphp.c:238-257 | it flushes exactly when the first clock reading is more than 300 seconds after the last flush, and then reports the queued records, starts an empty queue, leaves the store, cache and buffer unchanged and stamps the second reading that `flush_zomphp` takes; otherwise it changes nothing and reports nothing |
| Runs.CallStore | xdebug_zomphp.c:309-327 | in the corrected store, after a call, the store holds exactly the sites called so far |
| Runs.CallQueue | xdebug_zomphp.c:309-323 | in the corrected store, with every allocation granted, a call queues the record of a site that was not called before, and nothing for a site that was |
| Runs.ExactlyOnce | xdebug_zomphp.c:238-328 | in the corrected store, with every allocation granted, the records reported and then pending are one record per distinct site, in first-call order, under any mix of calls and flushes; the store holds exactly the sites called |
| Runs.AtMostOnce | xdebug_zomphp.c:238-328 | in the corrected store, under any allocator answers, the records reported and then pending are a subsequence of one record per distinct site in first-call order |
| Runs.FirstCallQueues | xdebug_zomphp.c:312-321 | in the corrected store, the first call of a site, with queue and buffer present and allocations granted, queues exactly its record |
| Runs.RepeatQueuesOnce | xdebug_zomphp.c:309-323 | in the corrected store, calling `a.php`, `f`, line 10 twice queues `a.php:f:10\n` once |
| Runs.TwoLinesQueueTwo | xdebug_zomphp.c:312-321 | in the corrected store, calling lines 10 and 11 of `f` queues the two records in call order |
| Runs.TwoLinesStored | xdebug_zomphp.c:312-327 | in the corrected store, after lines 10 and 11 of `f`, the function's line table holds exactly lines 10 and 11 |
| Runs.AsWrittenMissQueues | xdebug_zomphp.c:309-321 | as written, a call that misses the cache, because its file, function or line differs from the last call's, queues its record whatever the store holds |
| Runs.AsWrittenRevisit | xdebug_zomphp.c:309-323 | as written, the calls a, b, a on two distinct lines queue the record for a twice |
| Runs.AsWrittenQueuesTwice | xdebug_zomphp.c:309-323 | as written, the calls to lines 10, 11, 10 of `f` queue `a.php:f:10\n`, `a.php:f:11\n`, `a.php:f:10\n` |
| Runs.CorrectedQueuesOnce | xdebug_zomphp.c:309-327 | with the line stored, the same three calls queue `a.php:f:10\n` and `a.php:f:11\n` only |
| Runs.FlushThenRepeatQueuesNothing | xdebug_zomphp.c:238-245 | in the corrected store, a flush does not make the store forget: a site seen before the flush is not queued again after it |

## Left out

- `xdebug_socket.c` and `xdebug_socket.h`: the socket transport and socket negotiation are I/O and are not part of this model. The delivery callback `report_item_to_daemon` is an empty stub in the source. It is modelled as the sequence of strings handed to it.
- The destructors (`free_zomphp_data`, `free_zomphp_extensible_string` and the three hash element destructors) release memory only, so they are not modelled. `free_string_list` is `StringLists.Drain` with no callback.
- `xdebug_hash_*` is modelled as Dafny maps keyed by the name strings. Table sizes and hashing are not modelled.
- The `malloc`/`strdup` calls at xdebug_zomphp.c lines 288-291, 301-304 and 313-314 are unchecked in the source, which would dereference NULL on failure. The model assumes they succeed. `strdup` and `malloc` in `add_string_to_string_list` are folded into one "granted" flag, because either failure has the same effect.
- `gettimeofday` becomes an argument counting whole seconds, since only `tv_sec` is compared. `flush_zomphp_automatic` reads the clock twice, once to decide (line 253) and once inside `flush_zomphp` to stamp `last_flush` (line 243), so `ZomData.FlushAutomatic` takes both readings, `now` and `stamp`.
- `MAX_LINE_NB_LENGTH`, computed with `ceil(log10(INT_MAX)) + 2` in floating point, is the constant 12.
- The bytes of a freshly allocated buffer are unspecified in C. The model fills them with `?`; no property depends on them.
- Line numbers are unbounded integers. `ZomData.LineFitsBuffer` covers the C `int` range, and the clamp at INT_MAX is modelled.
- ZomData.RecordCallAsWritten: does not track the hit count of the detached line element the source allocates. That element is not reachable from the store, and its only effect is a count nobody reads.
- `zomphp_extensible_strcat` restarts at position 0 on every call (line 100), so a record never carries text from an earlier one. The scratch buffer is not a cumulative log of records.
- A flush has no retry and no partial delivery: it hands every record to the callback and drops the list (lines 241-242).

## Findings

| source | as written | input that shows it | evidently intended | confidence | as-written member | corrected member |
|---|---|---|---|---|---|---|
| xdebug_zomphp.c:312-323 | a line missing from its function's table is allocated and queued, but is never added to `func->linenos`, so only the one-entry cache stops a site being queued again | calls (`a.php`, `f`, 10), (`a.php`, `f`, 11), (`a.php`, `f`, 10) with all allocations granted queue `a.php:f:10\n` twice | the new line is added to its function's table, so each site is queued once per process | high; not executed | Runs.AsWrittenQueuesTwice | Runs.CorrectedQueuesOnce |
