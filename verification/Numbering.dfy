/** Which sequence numbers the messages of a run carry. */
module Numbering {
  import opened PackClient
  import opened Packing
  import opened Outcomes
  import TypeConversion

  /** The entry drew a number: its order packs, whatever the draw gave. */
  predicate Drew(en: Entry) {
    en.moved.Some? && Packable(en.moved.value.1)
  }

  function DrewCount(log: seq<Entry>): nat {
    if log == [] then 0 else DrewCount(log[..|log| - 1]) + if Drew(log[|log| - 1]) then 1 else 0
  }

  function KeyOf(st: Setting): TypeConversion.SeqKey {
    (st.scope.pipeId, st.scope.modTrdDt)
  }

  predicate NoDrawFails(turns: seq<(bool, Env)>) {
    forall k :: 0 <= k < |turns| ==> turns[k].1.draw == TypeConversion.DrawFaults(false, false)
  }

  /** The k-th entry carries the start value plus the entries up to it that drew, modulo the maximum. */
  ghost predicate Numbered(log: seq<Entry>, start: int) {
    forall k :: 0 <= k < |log| && Drew(log[k]) ==>
                  log[k].moved.value.2.seqNum == (start + DrewCount(log[..k]) + 1) % 2147483647
  }

  lemma OneMoreNumbered(log: seq<Entry>, en: Entry, start: int)
    requires Numbered(log, start)
    requires Drew(en) ==> en.moved.value.2.seqNum == (start + DrewCount(log) + 1) % 2147483647
    ensures Numbered(log + [en], start)
  {
    hide Drew, DrewCount;
    var all := log + [en];
    assert forall k :: 0 <= k < |log| ==> all[k] == log[k] && all[..k] == log[..k];
    assert all[..|log|] == log && all[|log|] == en;
  }

  lemma DrewOneMore(log: seq<Entry>, en: Entry)
    ensures DrewCount(log + [en]) == DrewCount(log) + if Drew(en) then 1 else 0
  {
    assert (log + [en])[..|log|] == log;
  }

  /** The counters once `n` numbers have been drawn. */
  ghost predicate Counts(c0: Client, st: Setting, c: Client, n: nat) {
    && KeyOf(st) in c0.counters
    && c.counters == c0.counters[KeyOf(st) := (c0.counters[KeyOf(st)] + n) % 2147483647]
  }

  lemma OneUp(x: nat)
    ensures (x % 2147483647 + 1) % 2147483647 == (x + 1) % 2147483647
  {
  }

  lemma NextDraw(rows: map<TypeConversion.SeqKey, int>, key: TypeConversion.SeqKey, n: nat)
    requires key in rows && 0 <= rows[key] < 2147483647
    ensures var drawn := TypeConversion.Draw(rows[key := (rows[key] + n) % 2147483647], key,
                                             TypeConversion.DrawFaults(false, false));
            && drawn.1 == (rows[key] + n + 1) % 2147483647
            && drawn.0 == rows[key := (rows[key] + n + 1) % 2147483647]
  {
    var now := rows[key := (rows[key] + n) % 2147483647];
    TypeConversion.DrawOutcomes(now, key, TypeConversion.DrawFaults(false, false));
    OneUp(rows[key] + n);
    hide TypeConversion.Draw;
  }

  lemma NextCount(c0: Client, st: Setting, c: Client, n: nat, e: Env)
    requires KeyOf(st) in c0.counters && 0 <= c0.counters[KeyOf(st)] < 2147483647 && Counts(c0, st, c, n)
    requires e.draw == TypeConversion.DrawFaults(false, false)
    ensures var (after, o) := NextRecord(c, st, e);
            && (o.Moved? ==> o.issue.seqNum == (c0.counters[KeyOf(st)] + n + 1) % 2147483647)
            && (!(o.Moved? && Packable(o.order)) ==> Counts(c0, st, after, n))
            && (o.Moved? && Packable(o.order) ==> Counts(c0, st, after, n + 1))
  {
    hide NextRecord, TypeConversion.Draw, Packable;
    DrawsForPackable(c, st, e);
    NextDraw(c0.counters, KeyOf(st), n);
  }

  lemma TurnNumbers(c0: Client, st: Setting, s: Service, open: bool, e: Env)
    requires KeyOf(st) in c0.counters && 0 <= c0.counters[KeyOf(st)] < 2147483647
    requires e.draw == TypeConversion.DrawFaults(false, false)
    requires Numbered(s.log, c0.counters[KeyOf(st)]) && (s.Runs() ==> Counts(c0, st, s.client, DrewCount(s.log)))
    ensures var t := Turn(s, st, open, e);
            && Numbered(t.log, c0.counters[KeyOf(st)])
            && (t.Runs() ==> Counts(c0, st, t.client, DrewCount(t.log)))
  {
    hide NextRecord, Numbered, Counts, DrewCount, Packable;
    if s.Runs() && open {
      NextCount(c0, st, s.client, DrewCount(s.log), e);
      var (after, o) := NextRecord(s.client, st, e);
      if !o.Failed? {
        var en := EntryOf(o, after.mem.packet, e.trailing);
        DrewOneMore(s.log, en);
        OneMoreNumbered(s.log, en, c0.counters[KeyOf(st)]);
      }
    }
  }

  /**
   In a run whose draws do not fail the messages are numbered one after the other: each order that
   packs takes the next number, and no other order takes one.
   */
  lemma {:induction false} MessagesAreNumbered(c0: Client, st: Setting, turns: seq<(bool, Env)>)
    requires KeyOf(st) in c0.counters && 0 <= c0.counters[KeyOf(st)] < 2147483647 && NoDrawFails(turns)
    ensures var s := Exec(Start(c0), st, turns);
            && Numbered(s.log, c0.counters[KeyOf(st)])
            && (s.Runs() ==> Counts(c0, st, s.client, DrewCount(s.log)))
  {
    var start := c0.counters[KeyOf(st)];
    if turns == [] {
      assert c0.counters == c0.counters[KeyOf(st) := start];
    } else {
      var before, last := turns[..|turns| - 1], turns[|turns| - 1];
      MessagesAreNumbered(c0, st, before);
      TurnNumbers(c0, st, Exec(Start(c0), st, before), last.0, last.1);
    }
    hide Turn, Numbered, Counts, DrewCount;
  }
}
