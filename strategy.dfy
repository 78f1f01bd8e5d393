/** The strategy editor: one free-text strategy and one notes field, kept in
    a single row of the `strategies` table and saved automatically a short
    while after the last edit. The store's replies and the clock are
    parameters; the timers are reduced to the one save they may have
    pending, and the requests issued are recorded in `sent`. */
module StrategyEditor {
  import opened Journal

  /** A row of the `strategies` table as a select returns it. */
  datatype StrategyRow = StrategyRow(id: string, strategy: Option<string>, notes: Option<string>, updatedAt: Option<string>)

  /** The reply to the single-row select: the row, or no row (the store's
      "no rows" code or any other error, which is only logged). */
  datatype FetchReply = Found(row: StrategyRow) | NoRow(code: string)

  /** What a save writes. */
  datatype Payload = Payload(strategy: string, notes: string, updatedAt: string)

  /** A write to the `strategies` table. */
  datatype SaveRequest = InsertRow(payload: Payload) | UpdateRow(id: string, payload: Payload)

  /** The reply to a write that selects the written rows. */
  datatype SaveReply = Saved(rows: seq<StrategyRow>) | SaveError(message: string)

  /** The text a page field takes from a column: the column's text, or ""
      when the column is null. */
  function TextOrEmpty(column: Option<string>): (r: string)
    ensures column.None? ==> r == ""
    ensures column.Some? ==> r == column.value
  {
    match column
    case Some(s) => s
    case None => ""
  }

  /** The write a save issues: an update of the known row, or an insert when
      no row is known yet ("" stands for a null identifier). */
  function RequestFor(id: string, p: Payload): (r: SaveRequest)
    ensures r.payload == p
    ensures r.UpdateRow? <==> id != ""
    ensures r.UpdateRow? ==> r.id == id
  {
    if id != "" then UpdateRow(id, p) else InsertRow(p)
  }

  /** The identifier known after a save's reply: the first returned row's
      identifier on success with rows, otherwise the one known before. */
  function IdAfter(id: string, reply: SaveReply): (r: string)
    ensures reply.SaveError? ==> r == id
    ensures reply.Saved? && reply.rows == [] ==> r == id
    ensures reply.Saved? && reply.rows != [] ==> r == reply.rows[0].id
  {
    match reply
    case Saved(rows) => if rows != [] then rows[0].id else id
    case SaveError(_) => id
  }

  /** Once a save has adopted an identifier, every later save updates that
      row: inserting happens at most until the first successful save. */
  lemma SavedRowIsUpdatedNext(id: string, reply: SaveReply, p: Payload)
    requires reply.Saved? && reply.rows != [] && reply.rows[0].id != ""
    ensures RequestFor(IdAfter(id, reply), p) == UpdateRow(reply.rows[0].id, p)
  {
  }

  /** An identifier, once known, is never lost by a later save. */
  lemma KnownIdStaysKnown(id: string, reply: SaveReply)
    requires id != ""
    requires reply.Saved? ==> forall i :: 0 <= i < |reply.rows| ==> reply.rows[i].id != ""
    ensures IdAfter(id, reply) != ""
  {
    match reply
    case Saved(rows) =>
      if rows != [] {
        assert rows[0].id != "";
      }
    case SaveError(_) =>
  }

  /** A save the debounce timer will make: the field values it captured. */
  datatype Draft = Draft(strategy: string, notes: string)

  class Editor {
    var strategy: string
    var notes: string
    var lastSaved: Option<string>
    var loading: bool
    var saving: bool
    /** The known row's identifier, "" while none is known. */
    var id: string
    /** Set until the first load has settled; autosave stays off meanwhile. */
    var isFirstLoad: bool
    /** The save the debounce timer will make when it fires, if any. */
    var pending: Option<Draft>
    /** The writes issued to the store, oldest first. */
    ghost var sent: seq<SaveRequest>

    /** A pending save always carries the fields as they are now (every edit
        replaces it), and none is pending before the first load settles. */
    predicate Valid()
      reads this
    {
      (pending.Some? ==> pending.value == Draft(strategy, notes) && !isFirstLoad) &&
      (isFirstLoad ==> pending.None?)
    }

    /** The page as first rendered: empty fields, loading. */
    constructor ()
      ensures Valid()
      ensures strategy == "" && notes == "" && lastSaved == None && id == ""
      ensures loading && !saving && isFirstLoad && pending == None && sent == []
    {
      strategy := "";
      notes := "";
      lastSaved := None;
      loading := true;
      saving := false;
      id := "";
      isFirstLoad := true;
      pending := None;
      sent := [];
    }

    /** The autosave effect, run whenever strategy or notes changed: it first
        cancels the pending save, then schedules a new one unless the page is
        loading or the first load has not settled. */
    method AutosaveEffect()
      modifies this`pending
      ensures pending == if loading || isFirstLoad then None else Some(Draft(strategy, notes))
    {
      pending := None;
      if loading || isFirstLoad {
        return;
      }
      pending := Some(Draft(strategy, notes));
    }

    /** Load the row: a row sets both fields (a null column reads as ""),
        adopts its identifier and, when it has one, its update time; no row
        leaves the fields alone. Loading ends either way. */
    method FetchStrategy(reply: FetchReply)
      requires Valid()
      modifies this`strategy, this`notes, this`id, this`lastSaved, this`loading, this`pending
      ensures Valid()
      ensures !loading
      ensures reply.Found? ==>
                strategy == TextOrEmpty(reply.row.strategy) && notes == TextOrEmpty(reply.row.notes) &&
                id == reply.row.id &&
                lastSaved == (if reply.row.updatedAt.Some? && reply.row.updatedAt.value != ""
                              then reply.row.updatedAt else old(lastSaved))
      ensures reply.NoRow? ==>
                strategy == old(strategy) && notes == old(notes) && id == old(id) && lastSaved == old(lastSaved)
      ensures old(isFirstLoad) ==> pending == None
      ensures strategy == old(strategy) && notes == old(notes) ==> pending == old(pending)
    {
      loading := true;
      var before := Draft(strategy, notes);
      match reply {
        case Found(row) =>
          strategy := TextOrEmpty(row.strategy);
          notes := TextOrEmpty(row.notes);
          id := row.id;
          if row.updatedAt.Some? && row.updatedAt.value != "" {
            lastSaved := row.updatedAt;
          }
        case NoRow(_) =>
      }
      loading := false;
      if Draft(strategy, notes) != before {
        AutosaveEffect();
      }
    }

    /** The first-load delay has passed: later edits are saved. */
    method FirstLoadSettled()
      requires Valid()
      modifies this`isFirstLoad
      ensures Valid()
      ensures !isFirstLoad
    {
      isFirstLoad := false;
    }

    /** An edit of the strategy text. An unchanged value re-renders nothing;
        a changed one replaces any pending save. */
    method SetStrategy(s: string)
      requires Valid()
      modifies this`strategy, this`pending
      ensures Valid()
      ensures strategy == s
      ensures s == old(strategy) ==> pending == old(pending)
      ensures s != old(strategy) ==>
                pending == if loading || isFirstLoad then None else Some(Draft(s, notes))
    {
      if s != strategy {
        strategy := s;
        AutosaveEffect();
      }
    }

    /** An edit of the notes, handled as an edit of the strategy text is. */
    method SetNotes(n: string)
      requires Valid()
      modifies this`notes, this`pending
      ensures Valid()
      ensures notes == n
      ensures n == old(notes) ==> pending == old(pending)
      ensures n != old(notes) ==>
                pending == if loading || isFirstLoad then None else Some(Draft(strategy, n))
    {
      if n != notes {
        notes := n;
        AutosaveEffect();
      }
    }

    /** Save the given texts with the time `now`: update the known row, or
        insert one when none is known. A reply with rows makes the first
        row's identifier the known one and records `now`; an error, or a
        reply without rows, changes neither. `saving` is off at the end. */
    method SaveData(newStrategy: string, newNotes: string, now: string, reply: SaveReply)
      modifies this`id, this`lastSaved, this`saving, this`sent
      ensures sent == old(sent) + [RequestFor(old(id), Payload(newStrategy, newNotes, now))]
      ensures id == IdAfter(old(id), reply)
      ensures lastSaved == if reply.Saved? && reply.rows != [] then Some(now) else old(lastSaved)
      ensures !saving
    {
      saving := true;
      var payload := Payload(newStrategy, newNotes, now);
      if id != "" {
        sent := sent + [UpdateRow(id, payload)];
      } else {
        sent := sent + [InsertRow(payload)];
      }
      match reply {
        case Saved(rows) =>
          if rows != [] {
            id := rows[0].id;
            lastSaved := Some(now);
          }
        case SaveError(_) =>
      }
      saving := false;
    }

    /** The debounce timer fires: the pending save, which holds the latest
        strategy and notes, is made; with none pending nothing happens. */
    method TimerElapsed(now: string, reply: SaveReply)
      requires Valid()
      modifies this`pending, this`id, this`lastSaved, this`saving, this`sent
      ensures Valid()
      ensures pending == None
      ensures old(pending).None? ==>
                sent == old(sent) && id == old(id) && lastSaved == old(lastSaved) && saving == old(saving)
      ensures old(pending).Some? ==>
                sent == old(sent) + [RequestFor(old(id), Payload(strategy, notes, now))] &&
                id == IdAfter(old(id), reply) && !saving &&
                lastSaved == (if reply.Saved? && reply.rows != [] then Some(now) else old(lastSaved))
    {
      if pending.Some? {
        var draft := pending.value;
        pending := None;
        SaveData(draft.strategy, draft.notes, now, reply);
      }
    }
  }
}
