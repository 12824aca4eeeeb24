// The bounded query automatic recall uses to find the fresh tail in the log.
module Recent {
  import opened Core
  import opened Window
  import opened FreshTail

  // The query: newest non-tool messages first, at most `limit` rows.
  function NewestRows(log: seq<Message>, limit: nat): seq<Message> {
    if log == [] || limit == 0 then []
    else
      var m := log[|log| - 1];
      if m.role != Tool then [m] + NewestRows(log[..|log| - 1], limit - 1)
      else NewestRows(log[..|log| - 1], limit)
  }

  // The IDs of the fresh tail among the first n messages, newest first.
  function TailIds(log: seq<Message>, n: nat, minMessages: int, minTokens: int): seq<MessageId>
    requires n <= |log|
  {
    if n == 0 then []
    else (if InTail(LogEntries(log), n - 1, minMessages, minTokens) then [log[n - 1].id] else [])
         + TailIds(log, n - 1, minMessages, minTokens)
  }

  // The tail is of messages that are not tool results, and its IDs go from the newest
  // to the oldest.
  lemma {:induction false} TailIsNewestFirst(log: seq<Message>, n: nat, minMessages: int, minTokens: int)
    returns (places: seq<nat>)
    requires n <= |log|
    ensures |places| == |TailIds(log, n, minMessages, minTokens)|
    ensures forall j | 0 <= j < |places| ::
      && places[j] < n && log[places[j]].role != Tool
      && TailIds(log, n, minMessages, minTokens)[j] == log[places[j]].id
    ensures forall i, j | 0 <= i < j < |places| :: places[i] > places[j]
  {
    places := [];
    if n > 0 {
      places := TailIsNewestFirst(log, n - 1, minMessages, minTokens);
      if InTail(LogEntries(log), n - 1, minMessages, minTokens) {
        places := [n - 1] + places;
      }
    }
  }

  const MAX_ROWS := 4096

  // The tail's IDs newest first, cut at the row cap.
  method RecentConversationalMessageIDs(log: seq<Message>, minMessages: int, minTokens: int, maxRows: int)
    returns (r: Result<seq<MessageId>>)
    ensures r.Err? <==> minMessages < 0 || minTokens < 0 || maxRows < 1 || maxRows > MAX_ROWS
    ensures r.Ok? ==>
      var tail := TailIds(log, |log|, minMessages, minTokens);
      r.value == tail[..Min(maxRows, |tail|)]
  {
    hide TailIds;
    if minMessages < 0 || minTokens < 0 || maxRows < 1 || maxRows > MAX_ROWS {
      return Err("store: invalid recent-message limits");
    }
    var rows := NewestRows(log, maxRows);
    var ids: seq<MessageId>, tokens: nat := [], 0;
    ghost var p: nat := |log|;
    assert log[..p] == log;
    for k := 0 to maxRows
      invariant |ids| == k
      invariant Scanned(log, p, rows, maxRows - k, ids, tokens, minMessages, minTokens)
    {
      if |ids| >= minMessages && tokens >= minTokens {
        NothingBelow(log, p, minMessages, minTokens);
        return Ok(ids);
      }
      if rows == [] {
        NoRowsLeft(log, p, maxRows - k, minMessages, minTokens);
        return Ok(ids);
      }
      p := ScanRow(log, p, rows, maxRows - k, ids, tokens, minMessages, minTokens);
      ids, tokens, rows := ids + [rows[0].id], tokens + rows[0].tokenCount, rows[1..];
    }
    return Ok(ids);
  }

  // The scan has taken every conversational message from p on, all of them in the
  // tail, and `rows` is what the cursor still holds.
  predicate Scanned(log: seq<Message>, p: nat, rows: seq<Message>, limit: nat, ids: seq<MessageId>, tokens: nat,
                    minMessages: int, minTokens: int)
  {
    && p <= |log|
    && |ids| == CountFrom(LogEntries(log), p) && tokens == TokensFrom(LogEntries(log), p)
    && rows == NewestRows(log[..p], limit)
    && TailIds(log, |log|, minMessages, minTokens) == ids + TailIds(log, p, minMessages, minTokens)
  }

  lemma ScanRow(log: seq<Message>, p: nat, rows: seq<Message>, limit: nat, ids: seq<MessageId>, tokens: nat,
                minMessages: int, minTokens: int) returns (q: nat)
    requires Scanned(log, p, rows, limit, ids, tokens, minMessages, minTokens)
    requires limit > 0 && rows != [] && (|ids| < minMessages || tokens < minTokens)
    ensures Scanned(log, q, rows[1..], limit - 1, ids + [rows[0].id], tokens + rows[0].tokenCount,
                    minMessages, minTokens)
  {
    q := NextRow(log, p, limit, minMessages, minTokens);
    assert rows[1..] == NewestRows(log[..q], limit - 1);
  }

  // With both floors met, no older message is in the tail.
  lemma {:induction false} NothingBelow(log: seq<Message>, p: nat, minMessages: int, minTokens: int)
    requires p <= |log| && !TailOpen(LogEntries(log), p, minMessages, minTokens)
    ensures TailIds(log, p, minMessages, minTokens) == []
    decreases p
  {
    if p > 0 {
      TailOpenMonotone(LogEntries(log), p - 1, p, minMessages, minTokens);
      NothingBelow(log, p - 1, minMessages, minTokens);
    }
  }

  lemma {:induction false} NoRowsLeft(log: seq<Message>, p: nat, limit: nat, minMessages: int, minTokens: int)
    requires p <= |log| && limit > 0 && NewestRows(log[..p], limit) == []
    ensures TailIds(log, p, minMessages, minTokens) == []
    decreases p
  {
    if p > 0 {
      assert log[..p][..p - 1] == log[..p - 1];
      NoRowsLeft(log, p - 1, limit, minMessages, minTokens);
    }
  }

  // The next row is the newest conversational message below p; while a floor is
  // open it is also the next message of the tail.
  lemma {:induction false} NextRow(log: seq<Message>, p: nat, limit: nat, minMessages: int, minTokens: int)
    returns (q: nat)
    requires p <= |log| && limit > 0 && NewestRows(log[..p], limit) != []
    requires TailOpen(LogEntries(log), p, minMessages, minTokens)
    ensures q < p && log[q].role != Tool
    ensures NewestRows(log[..p], limit) == [log[q]] + NewestRows(log[..q], limit - 1)
    ensures CountFrom(LogEntries(log), q) == CountFrom(LogEntries(log), p) + 1
    ensures TokensFrom(LogEntries(log), q) == TokensFrom(LogEntries(log), p) + log[q].tokenCount
    ensures TailIds(log, p, minMessages, minTokens) == [log[q].id] + TailIds(log, q, minMessages, minTokens)
    decreases p
  {
    assert log[..p][..p - 1] == log[..p - 1];
    if log[p - 1].role != Tool {
      q := p - 1;
    } else {
      q := NextRow(log, p - 1, limit, minMessages, minTokens);
    }
  }
}
