# memory reboot: a Dafny model of the repeated-content detector

The plugin watches each group chat and can remind a poster when the
message they just sent repeats something the group has already seen.
A repeat alone is not enough. The matched message must come from
someone else (main.py:1344). At least `min_unique_senders` distinct
senders (3 by default) must have posted matching content (main.py:1349).
The match must be at least `cooldown` seconds old (main.py:1357-1359). When the
judgment model is switched on, it must also agree (main.py:1369-1377).
This model covers the core of `main.py`:

- **Records** (`Records.dfy`): the stored message record. It has the
  fields `_append_message` stores. It also has the Python truthiness
  tests the source applies to an optional embedding or image hash.
- **Fingerprint** (`Fingerprint.dfy`):
  - the 256-bit difference hash (dHash) of a 17x16 grayscale grid,
    printed as 64 lower-case hex digits;
  - the Hamming similarity of two hex hashes, following the source's
    steps (see "## Left out" for where it differs). Each hash goes through a Python integer, then a
    zero-padded bit string, then a count of differing positions.
- **MatchEngine** (`MatchEngine.dfy`):
  - the best-match scan, which is generic over an eligibility test and
    a score. The text scan uses an opaque cosine function. The image
    scan uses the hash similarity;
  - the two unique-sender counters;
  - the clipped context window and the "last 40 before the new message"
    window handed to the judgment model.
- **Store** (`Store.dfy`): the class `MessageStore`. It holds the
  in-memory cache, which maps a group to its messages and the time of
  its last load. It also holds the on-disk day partitions, modelled as
  a map from (group, day) to records. The store covers:
  - loading, with the same-day cache hit and the eviction after a day
    change;
  - the cold load from disk;
  - appending, with its write-batch rule;
  - flushing, grouped by day;
  - erasing a group.

  Loading and appending are tied to pure functions of the old state.
  Flushing and cold-loading are proved to round-trip.
- **Pipeline** (`Pipeline.dfy`): the gate sequence of
  `on_group_message`. It is a pure `Decide` function with lemmas about
  it. There is also an imperative `OnGroupMessage` over a
  `MessageStore`, proved to produce `Decide`'s outcome and the store
  update it implies.

Three details of the handler, as `main.py` writes them, shape the model:
- The self-repost gate runs before the unique-sender gate (main.py:1344-1352).
- The text match stands unless the image match is strictly older (main.py:1322-1325).
- Unique senders are counted on the snapshot that includes the new message (main.py:1334-1338).

The following are parameters:
- `now`, the one clock reading per message;
- `dayOf`, the local calendar day of a timestamp;
- the cosine similarity;
- the results of the embedding service and of the image cache;
- the regex and plugin-command filters, as booleans;
- the verdict of the judgment model.

## Model

| member | source | states |
|---|---|---|
| Fingerprint.HexValue | main.py:945-946 | `int(h, 16)` of a hex string, digit by digit, most significant first; the value is below 16^len |
| Fingerprint.HexDigits | main.py:922 | `hex(n)[2:].zfill(w)`: the w lower-case hex digits of n, zero-padded on the left |
| Fingerprint.BinValue | main.py:922 | `int(bits, 2)` of a bit string, most significant first; the value is below 2^len |
| Fingerprint.BinDigits | main.py:945-946 | `bin(n)[2:].zfill(w)`: the w binary digits of n, zero-padded on the left |
| Fingerprint.HashBits | main.py:945-946 | the 4·len bit string a hex hash is compared by |
| Fingerprint.Diff | main.py:947 | the number of positions where two equally long bit strings differ; 0 exactly when they are equal, never more than their length |
| Fingerprint.HexValueOfDigits | main.py:922 | the printed hash reads back as the integer it was printed from (`int(hex(n), 16) == n` at fixed width) |
| Fingerprint.HexValueInjective | main.py:922 | two lower-case hex strings of the same width with the same value are the same string |
| Fingerprint.BinValueOfDigits | main.py:945-946 | zero-padded binary digits of n read back as n |
| Fingerprint.BinDigitsOfValue | main.py:945-946 | a bit string is recovered from its value at its own width, so nothing is lost by going through the integer |
| Fingerprint.HashSimilarity | main.py:940-950 | result lies in [0, 1]; it is 0.0 when either hash is empty or the lengths differ |
| Fingerprint.HashSimilaritySymmetric | main.py:940-950 | similarity does not depend on the order of the two hashes |
| Fingerprint.HashSimilarityOne | main.py:940-950 | similarity is 1.0 exactly when both hashes are non-empty hex strings of equal length with equal value |
| Fingerprint.HashSimilarityOneLower | main.py:940-950 | for lower-case hashes (as the dHash prints them), similarity 1.0 exactly when the hashes are equal and non-empty |
| Fingerprint.HashSimilarityComplement | main.py:940-950 | bit-complementary hashes have similarity 0.0 |
| Fingerprint.DHashBits | main.py:914-919 | the 256 bits the nested loop appends, row by row, one per adjacent pixel pair |
| Fingerprint.DHashBitAt | main.py:914-919 | bit row*16+col is set exactly when pixel row*17+col is brighter than its right neighbour |
| Fingerprint.ComputeDHash | main.py:911-923 | the nested loop yields 64 lower-case hex digits whose bits, MSB first, are the dHash bits of the grid |
| MatchEngine.ScanEnd | main.py:960 | the scan stops `exclude_recent` before the end when that is positive, and never past the end (nor below 0 when exclude_recent exceeds the length) |
| MatchEngine.BestUpTo | main.py:959-983 | the state (best record, best index, best_sim) of the scan after the first k records: best_sim moves only on a strictly greater eligible score, and the record and index are taken only when that score also meets the threshold |
| MatchEngine.IsBestMatch | main.py:956-983 | what the scan promises, stated without the loop: maximum of 0 and the scanned scores, threshold rule, first index, -1 when nothing is returned |
| MatchEngine.BestUpToIsBest | main.py:956-983 | best_sim is the maximum of 0 and every scanned eligible score; a record is returned iff that maximum is positive and meets the threshold, at the first index reaching it; the index is -1 iff none |
| MatchEngine.BestMatchUnique | main.py:956-983 | the scan's result is the only one meeting that characterisation |
| MatchEngine.TextEligible | main.py:965-971 | the text scan's skip tests: a record is scanned only when its embedding is truthy and has the query's length |
| MatchEngine.ImageEligible | main.py:993-995 | the image scan's skip test: a record is scanned only when its image hash is truthy |
| MatchEngine.BestTextMatch | main.py:956-983 | `_find_best_match`: the scan state over the first len - exclude_recent records, eligible by TextEligible, scored by the cosine of the query and the record's embedding |
| MatchEngine.BestImageMatch | main.py:985-1001 | `_find_similar_image`: the scan state over the first len - exclude_recent records, eligible by ImageEligible, scored by the hash similarity of the current hash and the record's hash |
| MatchEngine.ScanBest | main.py:959-983 | the loop updating best_sim, best_msg and best_idx computes that best match |
| MatchEngine.FindBestMatch | main.py:956-983 | the text scan over records with a non-empty embedding of the query's length is the best match under the cosine score |
| MatchEngine.FindSimilarImage | main.py:985-1001 | the image scan over records with a hash is the best match under hash similarity, and a returned record has a hash and a score in (0, 1] |
| MatchEngine.ExcludedTailNeverMatched | main.py:958-962 | with exclude_recent = 1 over history + [msg], a returned record is a history record at its index, never msg |
| MatchEngine.TextQualifies | main.py:1008-1009 | a record counts for the text counter when its embedding is truthy, has the query's length and its cosine score is at least the threshold |
| MatchEngine.ImageQualifies | main.py:1019-1020 | a record counts for the hash counter when its hash is truthy and its similarity to the current hash is at least the threshold |
| MatchEngine.SenderIds | main.py:1006-1011 | the set the counters build: the non-empty sender ids of the qualifying records |
| MatchEngine.SenderIdsMembers | main.py:1003-1023 | an id is counted exactly when it is non-empty and some qualifying record carries it |
| MatchEngine.SenderIdsBound | main.py:1003-1023 | there are never more distinct senders than qualifying records |
| MatchEngine.CountDistinctSenders | main.py:1006-1012 | the `set.add` loop returns the distinct non-empty sender ids of the qualifying records, and its count |
| MatchEngine.CountUniqueSenders | main.py:1003-1012 | counts distinct senders whose embedding has the query's length and cosine score >= threshold; the count is at most the number of such records |
| MatchEngine.CountUniqueSendersByHash | main.py:1014-1023 | counts distinct senders whose hash has similarity >= threshold; the count is at most the number of such records |
| MatchEngine.NewPosterCountedByHash | main.py:1014-1023 | the poster of the new message (last in the snapshot) is always among the senders counted by hash, since a valid hash matches itself |
| MatchEngine.ContextAround | main.py:1025-1030 | the window is records[max(0, i-before) .. min(n, i+after+1)], projected to name/content/time, at most before+after+1 long and containing the matched record |
| MatchEngine.RecentContext | main.py:1371-1373 | `messages_with_current[:-1][-40:]`: the last min(n, 40) records before the new message, in order |
| Store.Cutoff | main.py:537 | the retention horizon `now - retention_days * 86400` |
| Store.Retained | main.py:536-538 | the eviction comprehension: the records newer than the cutoff, in cache order; never longer than its input |
| Store.RetainedMembers | main.py:536-538 | a record survives eviction exactly when it was cached and is newer than the cutoff |
| Store.RetainedAll | main.py:536-538 | eviction changes nothing when every record is newer than the cutoff |
| Store.CleanupMessages | main.py:679-699 | cleanup only ever returns records of its input |
| Store.CleanupIsRetainedWhenSorted | main.py:688-699 | on a time-sorted list the fast path gives the same result as the retention filter |
| Store.SameDay | main.py:632-633 | the messages of one local day, in cache order; every one of them is on that day |
| Store.GroupByDay | main.py:667-672 | the `grouped` dict: each day present in the list maps to its records, appended in cache order |
| Store.GroupByDaySameDay | main.py:667-672 | the `grouped` dict maps each day present to exactly that day's records in cache order |
| Store.DayOrder | main.py:667-675 | the days written are exactly the days present in the cached list, none missing and none extra |
| Store.WriteDays | main.py:674-675 | the partitions after writing each listed day's group of records in turn |
| Store.Flushed | main.py:656-677 | the partitions after a flush: every day of the cached list written with that day's records, in first-appearance order |
| Store.WriteDaysAt | main.py:674-675 | writing the grouped days replaces exactly the partitions of those days of that group |
| Store.FlushedPartition | main.py:656-677 | after a flush, a partition of the group for a day present holds exactly that day's cached records; every other partition is unchanged |
| Store.WindowRecords | main.py:558-595 | the read loop over the sorted file listing: the partitions of days lo .. hi-1 concatenated in date order; a missing day contributes nothing |
| Store.InsertByTimePerm | main.py:597 | inserting one record into the sorted run adds exactly that record |
| Store.SortByTime | main.py:597 | the stable sort by timestamp, as insertion of each record after those with an equal or smaller timestamp; same length as its input |
| Store.SortByTimePerm | main.py:597 | sorting by timestamp is a permutation |
| Store.SortByTimeSorted | main.py:597 | sorting by timestamp yields a time-sorted list |
| Store.SortByTimeOfSorted | main.py:597 | sorting an already sorted list changes nothing |
| Store.ColdLoad | main.py:553-597 | the partitions of today and the retention_days days before, read in date order, then sorted by time |
| Store.ColdLoadSortedWindow | main.py:545-606 | a cold load is time-sorted and a permutation of the records in the window's partitions |
| Store.ColdLoadMembers | main.py:553-597 | a cold load holds exactly the records of the group's partitions for today and the retention_days days before |
| Store.FlushThenColdLoad | main.py:545-677 | flushing a time-sorted cache whose days lie in the window, then loading cold, gives back the same list, given no stale partition for a day absent from the cache |
| Store.LoadedEntry | main.py:526-543 | the entry `_load_messages` leaves: unchanged on a same-day hit; evicted to the records newer than now - retention·86400 with last_load = now after a day change; the cold load with last_load = now when absent |
| Store.AppendedEntry | main.py:619-625 | the entry after `_append_message`: old list ++ [msg] with its last_load, or [msg] with last_load = now when the group had no entry |
| Store.DayChangeEvicts | main.py:526-540 | after a day change the entry keeps exactly the cached records newer than now - retention*86400, and last_load becomes now |
| Store.NeedsWrite | main.py:636 | `should_write`: the day holds exactly 1 message or a multiple of 10 |
| Store.FirstOfDayIsWritten | main.py:625-639 | the first message of a day is always written, and that partition then holds just that message |
| Store.AppendGrowsDay | main.py:625-633 | appending adds the new message to the end of its day's list and leaves the earlier ones in order |
| Store.GroupRecordsByDay | main.py:667-672 | the loop building `grouped` produces the day grouping and the order of first appearance |
| Store.MessageStore.constructor | main.py:249-250 | an empty cache in front of the given partitions |
| Store.MessageStore.WriteDay | main.py:641-654 | one partition is replaced by the given records and nothing else changes |
| Store.MessageStore.LoadFromDisk | main.py:545-606 | the loaded list is the cold load of the window, cached with last_load = now |
| Store.MessageStore.Load | main.py:515-543 | the group's entry becomes the loaded entry (same-day hit, day-change eviction or cold load) and only that entry changes; the result is its list |
| Store.MessageStore.Append | main.py:607-639 | the group's list becomes old ++ [msg] (the entry created if absent); no other group changes; the day's partition is rewritten with that day's records iff their count is 1 or a multiple of 10 |
| Store.MessageStore.Flush | main.py:656-677 | a missing or empty entry writes nothing; otherwise the partitions become the flushed partitions of the cached list |
| Store.MessageStore.WriteGrouped | main.py:674-675 | each grouped day in order is written to its partition |
| Store.MessageStore.Erase | main.py:1506-1513 | the group's cache entry and all its partitions are gone; other groups are unchanged |
| Store.ErasedWindowEmpty | main.py:1509-1513 | after an erase, every window of the group reads empty, so the next load starts from nothing |
| Pipeline.PassesFilters | main.py:1237-1278 | the filters that record nothing, in order: a group id, not blocked, content extracted, long enough unless there is an image URL, no ignore-regex match, not a plugin command |
| Pipeline.IsGroupEnabled | main.py:305-320 | a group is enabled exactly when no entry of the block list equals it |
| Pipeline.SenderName | main.py:1245 | the sender name, or the sender id when the name is empty |
| Pipeline.NewRecord | main.py:1289-1302 | the record has the sender, content and time of the message; has_image iff an image URL was extracted; no hash or cached image without a truthy URL |
| Pipeline.TextCandidate | main.py:1313-1317 | the text scan with exclude_recent = 1, run only when the message has an embedding; no match otherwise |
| Pipeline.ImageCandidate | main.py:1319-1321 | the image scan with exclude_recent = 1, run only when the message has an image hash; no match otherwise |
| Pipeline.SelectMatch | main.py:1313-1325 | the text scan when the message has an embedding, the image scan when it has a hash, both with exclude_recent = 1; the text match stands unless there is none or the image match is strictly older |
| Pipeline.UniqueCount | main.py:1333-1341 | the distinct-sender count of the chosen match's kind over the snapshot, with the handler's fallback of 1 when that fingerprint is missing |
| Pipeline.MakeRequest | main.py:1371-1377 | the judge's arguments: the content and sender name, the matched record, the ±40 context around the match, the last 40 records before the new message, and the unique count |
| Pipeline.Verdict | main.py:1327-1381 | the gates in code order: no match, self-repost, too few senders, cooldown, then the judgment (Remind when it is off) |
| Pipeline.Decide | main.py:1232-1390 | NotRecorded when a filter rejects; otherwise the verdict on history + [msg] together with the new record to append |
| Pipeline.DefaultsRemindOnlyAfterThreeSendersAndAnHour | main.py:69-74 | with the default configuration a reminder needs another sender's match, at least 3 distinct senders, a match at least 3600 s old and the judgment's agreement |
| Pipeline.RecordedIffFiltersPass | main.py:1234-1278 | nothing is recorded exactly when the group, extraction, length, regex or command filter rejects; otherwise the new record is appended |
| Pipeline.MatchIsNeverTheNewMessage | main.py:1306-1325 | matching on messages + [msg] with exclude_recent = 1 returns a history record at its index, never the new message |
| Pipeline.MatchPrecedence | main.py:1313-1325 | the image match replaces the text match exactly when there is no text match or the image match is strictly older; no match when neither scan finds one |
| Pipeline.UniqueCountOfChosenKind | main.py:1333-1341 | the fallback count of 1 is never used: a chosen match always has its fingerprint, and the count is the distinct senders of that kind |
| Pipeline.RemindIffAllGatesPass | main.py:1234-1390 | a reminder is sent exactly when every filter passes, there is a match, the sender differs, enough senders posted it, the cooldown has passed and the judgment (when enabled) agrees |
| Pipeline.BlockingGatesSilence | main.py:1327-1362 | no match, a self-repost, too few senders and a match within the cooldown each rule out a reminder |
| Pipeline.JudgeOffRemindsOnAllGates | main.py:1367-1381 | with the judgment off the verdict does not depend on the judge, and every message passing all gates gets a reminder |
| Pipeline.SelfRepostNeverReminds | main.py:1344-1347 | a message whose whole history is from its own poster never triggers a reminder |
| Pipeline.ChooseMatch | main.py:1309-1325 | the two scans and the precedence rule compute the selected match |
| Pipeline.CountForKind | main.py:1333-1341 | the counter run is the one matching the kind of the chosen match |
| Pipeline.Evaluate | main.py:1327-1381 | the gates and the judgment computed step by step give the decision's verdict |
| Pipeline.OnGroupMessage | main.py:1232-1390 | the outcome is the decision on the loaded history; a filtered message changes nothing; otherwise the group's list after the load is extended by the new record once and the day's partition is written per the batch rule |

## Left out

- Files, compression and migrations: gzip and JSON, the `.tmp` plus `os.replace` write, the legacy single-file and uncompressed-file migrations, and directory setup. Disk is the partition map.
- Store.MessageStore.WriteDay: a failed write is not modelled. It would leave the partition unchanged.
- Store.MessageStore.Erase: a failing `rmtree` is not modelled. The cache entry is already gone by then, and `rmtree` stops at the first failed removal, so it may leave some or all of the group's partitions; a later cold load brings back only those. The admin and non-group checks of `clear_data` are outside the model.
- `_cleanup_image_cache`, which runs every 100 messages, only deletes image files. It does not touch records, so it is left out.
- `_get_embedding`, `_cache_image` (download and MD5 fallback), `_image_to_text`, `_judge_remind` and `_send_reminder` involve network and model calls.
  - Their results are inputs.
  - A failed judgment call counts as a `false` verdict, as the source returns False on an exception.
  - The judgment prompt's text formatting is not modelled. The model only states which records and counts the prompt is built from.
- `_cosine_similarity` uses floating point and numpy. It is an uninterpreted function.
- The PIL decode and resize are also left out. `ComputeDHash` starts from the 17x16 grid.
- Fingerprint.HashSimilarity: the result is an exact rational, not a float. Python's `int(h, 16)` also accepts whitespace, `_`, a `0x` prefix and a sign. Here any non-hex character gives the exception path's 0.0.
- `ignore_regex` with `re.fullmatch` and `_is_plugin_command` are booleans on the event. `_extract_content` is its result.
- Clock and time formatting:
  - `now` is read once per message. The source reads `time.time()` separately inside `_load_messages`, `_append_message` and again for the record.
  - `dayOf` stands for the local `strftime` day. It is assumed monotone only where the round-trip lemma says so.
  - The status command's text is not modelled.
- Concurrency: messages are handled one at a time per group, with no interleaving on the shared cache.
- Pipeline.OnGroupMessage: the source calls `_append_message` on five separate paths (main.py:1329, 1346, 1351, 1361, 1383). The model calls `Append` once after the verdict is known.
  - Appending then comes after the judgment and before any reminder, as in the source.
  - Because the judge is a pure input here, both orders give the same state.
- The record id is `uuid4()` in the source. Here it is an input.
