/** The binlog handler of one node (binlog/binlog_handler.go): event numbering, row notifications
    and the checkpoint, in memory and in the cache file. */
module BinlogHandler {
  import opened Bytes
  import opened PosRecord
  import opened CacheFile

  type uint32 = v: int | 0 <= v < TWO_32

  /** A position in the binlog (`mysql.Position`). */
  datatype Position = Position(file: bytes, pos: uint32)

  /** What the checkpoint code of a node works on. */
  datatype State = State(
    eventIndex: int64,
    last: Position,   // lastBinFile and lastPos
    cache: bytes,     // the content of the cache file
    exiting: bool,    // binlogIsExit
    open: bool        // cacheHandlerIsOpened
  )

  /** `saveBinlogPositionCache`, on the state. */
  function Saved(st: State, r: bytes): State {
    if !st.exiting && st.open then st.(cache := WriteAt(st.cache, r)) else st
  }

  /** `OnPosSynced`, on the state. */
  function Synced(st: State, p: Position): State {
    Saved(st, Record(Checkpoint(p.file, p.pos, st.eventIndex))).(last := p)
  }

  /** `SaveBinlogPosition`, on the state; a record too short to unpack panics and changes nothing. */
  function Installed(st: State, r: bytes): State {
    match UnpackPos(r)
    case None => st
    case Some(c) => Saved(st.(last := Position(c.file, c.pos % TWO_32), eventIndex := c.index), r)
  }

  /** `handlerInit`: the state after a process start, given where the master is. */
  function Restored(cache: bytes, master: Position): State {
    var c := ReadBack(cache);
    var last :=
      if c.file != [] && c.pos > 0 then
        var p := c.pos % TWO_32;
        Position(c.file, if c.file == master.file && p > master.pos then master.pos else p)
      else master;
    State(c.index, last, cache, false, true)
  }

  datatype Column = Column(name: string)

  /** A row event: one row per change, or before and after in turn for an update. The values of a
      row are decoded when it is notified. */
  datatype RowsEvent<Raw> = RowsEvent(schema: string, table: string, action: string, columns: seq<Column>,
                                      rows: seq<seq<Raw>>)

  datatype Cell<Value> = Nil | Cell(value: Value)

  type Row<Value> = map<string, Cell<Value>>

  datatype Content<Value> = Data(data: Row<Value>) | Change(oldData: Row<Value>, newData: Row<Value>)

  /** The event that is marshalled and sent to every subscriber. */
  datatype Notification<Value> = Notification(
    database: string, table: string, eventType: string, time: int, eventIndex: int64, content: Content<Value>)

  /** The decode of one row on its own: a fresh map, columns beyond the row are nil, and of columns
      with the same name the last one counts. */
  function DecodeRow<Raw, Value>(columns: seq<Column>, row: seq<Raw>, decode: (Raw, Column) -> Value): Row<Value> {
    if columns == [] then map[]
    else
      var k := |columns| - 1;
      DecodeRow(columns[..k], row, decode)[columns[k].name :=
        if k < |row| then Cell(decode(row[k], columns[k])) else Nil]
  }

  lemma {:induction false} DecodeRowKeys<Raw, Value>(columns: seq<Column>, row: seq<Raw>,
                                                     decode: (Raw, Column) -> Value)
    ensures DecodeRow(columns, row, decode).Keys == set k | 0 <= k < |columns| :: columns[k].name
  {
    if columns != [] {
      DecodeRowKeys(columns[..|columns| - 1], row, decode);
    }
  }

  /** Every column shows up with its own value when the names are distinct: the decode of its own cell of
      the row, or nil if the row is too short. */
  lemma {:induction false} DecodeRowAt<Raw, Value>(columns: seq<Column>, row: seq<Raw>,
                                                   decode: (Raw, Column) -> Value, k: nat)
    requires k < |columns|
    requires forall j :: k < j < |columns| ==> columns[j].name != columns[k].name
    ensures columns[k].name in DecodeRow(columns, row, decode)
    ensures DecodeRow(columns, row, decode)[columns[k].name]
         == if k < |row| then Cell(decode(row[k], columns[k])) else Nil
  {
    if k < |columns| - 1 {
      DecodeRowAt(columns[..|columns| - 1], row, decode, k);
    }
  }

  /** A map that tells of this row: it has the names of the columns, and under each of them the decode of the
      column's own cell, or nil if the row is too short; of columns with the same name the last one counts. */
  ghost predicate TellsRow<Raw, Value>(m: Row<Value>, columns: seq<Column>, row: seq<Raw>,
                                       decode: (Raw, Column) -> Value) {
    && (m.Keys == set k | 0 <= k < |columns| :: columns[k].name)
    && (forall k :: 0 <= k < |columns| && (forall j :: k < j < |columns| ==> columns[j].name != columns[k].name) ==>
          columns[k].name in m &&
          m[columns[k].name] == if k < |row| then Cell(decode(row[k], columns[k])) else Nil)
  }

  lemma DecodeRowTells<Raw, Value>(columns: seq<Column>, row: seq<Raw>, decode: (Raw, Column) -> Value)
    ensures TellsRow(DecodeRow(columns, row, decode), columns, row, decode)
  {
    hide DecodeRow;
    DecodeRowKeys(columns, row, decode);
    forall k | 0 <= k < |columns| && (forall j :: k < j < |columns| ==> columns[j].name != columns[k].name)
      ensures columns[k].name in DecodeRow(columns, row, decode)
      ensures DecodeRow(columns, row, decode)[columns[k].name]
           == if k < |row| then Cell(decode(row[k], columns[k])) else Nil
    {
      DecodeRowAt(columns, row, decode, k);
    }
  }

  /** Over a map with no other names it leaves nothing of that. */
  lemma OverlayTells<Raw, Value>(m: Row<Value>, columns: seq<Column>, row: seq<Raw>, decode: (Raw, Column) -> Value)
    requires m.Keys <= set k | 0 <= k < |columns| :: columns[k].name
    ensures TellsRow(m + DecodeRow(columns, row, decode), columns, row, decode)
  {
    hide DecodeRow, TellsRow;
    DecodeRowKeys(columns, row, decode);
    assert m + DecodeRow(columns, row, decode) == DecodeRow(columns, row, decode);
    DecodeRowTells(columns, row, decode);
  }

  /** How many notifications an event makes. */
  function Notifications<Raw>(e: RowsEvent<Raw>): nat {
    if e.action == "update" then |e.rows| / 2 else |e.rows|
  }

  /** The `i`-th notification of an event, made from nothing but its own rows. */
  function NotificationAt<Raw, Value>(e: RowsEvent<Raw>, i: nat, time: int, before: int64,
                                      decode: (Raw, Column) -> Value): Notification<Value>
    requires i < Notifications(e)
  {
    Notification(e.schema, e.table, e.action, time, Wrap64(before + i + 1),
                 if e.action == "update" then
                   Change(DecodeRow(e.columns, e.rows[2 * i], decode), DecodeRow(e.columns, e.rows[2 * i + 1], decode))
                 else
                   Data(DecodeRow(e.columns, e.rows[i], decode)))
  }

  function NotificationsOf<Raw, Value>(e: RowsEvent<Raw>, n: nat, time: int, before: int64,
                                       decode: (Raw, Column) -> Value): (r: seq<Notification<Value>>)
    requires n <= Notifications(e)
    ensures |r| == n
  {
    seq(n, i requires 0 <= i < n => NotificationAt(e, i, time, before, decode))
  }

  /** These notifications tell of the event: for an update one for the rows `2 i` and `2 i + 1` each, for any
      other event one for row `i`; table, action and time are the event's, and they are numbered on. */
  ghost predicate TellsEvent<Raw, Value>(ns: seq<Notification<Value>>, e: RowsEvent<Raw>, time: int, before: int64,
                                         decode: (Raw, Column) -> Value) {
    && |ns| == (if e.action == "update" then |e.rows| / 2 else |e.rows|)
    && forall i :: 0 <= i < |ns| ==>
         var n := ns[i];
         && n.database == e.schema && n.table == e.table && n.eventType == e.action && n.time == time
         && n.eventIndex == Wrap64(before + i + 1)
         && (e.action == "update" ==>
               && n.content.Change?
               && TellsRow(n.content.oldData, e.columns, e.rows[2 * i], decode)
               && TellsRow(n.content.newData, e.columns, e.rows[2 * i + 1], decode))
         && (e.action != "update" ==> n.content.Data? && TellsRow(n.content.data, e.columns, e.rows[i], decode))
  }

  lemma NotificationsTell<Raw, Value>(e: RowsEvent<Raw>, time: int, before: int64, decode: (Raw, Column) -> Value)
    ensures TellsEvent(NotificationsOf(e, Notifications(e), time, before, decode), e, time, before, decode)
  {
    hide DecodeRow, TellsRow, Wrap64;
    forall i | 0 <= i < |e.rows| {
      DecodeRowTells(e.columns, e.rows[i], decode);
    }
  }

  lemma NextNotification<Raw, Value>(e: RowsEvent<Raw>, n: nat, time: int, before: int64,
                                     decode: (Raw, Column) -> Value)
    requires n < Notifications(e)
    ensures NotificationsOf(e, n + 1, time, before, decode)
         == NotificationsOf(e, n, time, before, decode) + [NotificationAt(e, n, time, before, decode)]
  {
  }

  lemma NoNotification<Raw, Value>(e: RowsEvent<Raw>, time: int, before: int64, decode: (Raw, Column) -> Value)
    ensures NotificationsOf(e, 0, time, before, decode) == []
    ensures Wrap64(before) == before
  {
  }

  /** The next notification of an update, with its row pair written out. */
  lemma UpdateNotification<Raw, Value>(e: RowsEvent<Raw>, k: nat, time: int, before: int64,
                                       decode: (Raw, Column) -> Value)
    requires e.action == "update" && k < Notifications(e)
    ensures var n := Notification(e.schema, e.table, e.action, time, Wrap64(before + k + 1),
                                  Change(map[] + DecodeRow(e.columns, e.rows[2 * k], decode),
                                         map[] + DecodeRow(e.columns, e.rows[2 * k + 1], decode)));
            NotificationsOf(e, k + 1, time, before, decode) == NotificationsOf(e, k, time, before, decode) + [n]
  {
    NextNotification(e, k, time, before, decode);
    hide DecodeRow, NotificationsOf;
    assert map[] + DecodeRow(e.columns, e.rows[2 * k], decode) == DecodeRow(e.columns, e.rows[2 * k], decode);
    assert map[] + DecodeRow(e.columns, e.rows[2 * k + 1], decode) == DecodeRow(e.columns, e.rows[2 * k + 1], decode);
  }

  /** A Go map: an object the code shares and overwrites. */
  class GoMap<Value> {
    var entries: Row<Value>

    constructor ()
      ensures entries == map[]
    {
      entries := map[];
    }

    /** The loop over the columns, writing into a map that may hold an earlier row. */
    method Fill<Raw>(columns: seq<Column>, row: seq<Raw>, decode: (Raw, Column) -> Value)
      modifies this
      ensures entries == old(entries) + DecodeRow(columns, row, decode)
      ensures old(entries).Keys <= (set k | 0 <= k < |columns| :: columns[k].name) ==>
                TellsRow(entries, columns, row, decode)
    {
      hide TellsRow;
      for k := 0 to |columns|
        invariant entries == old(entries) + DecodeRow(columns[..k], row, decode)
      {
        assert columns[..k + 1][..k] == columns[..k];
        if k < |row| {
          entries := entries[columns[k].name := Cell(decode(row[k], columns[k]))];
        } else {
          entries := entries[columns[k].name := Nil];
        }
      }
      assert columns[..|columns|] == columns;
      if old(entries).Keys <= set k | 0 <= k < |columns| :: columns[k].name {
        OverlayTells(old(entries), columns, row, decode);
      }
    }
  }

  /** The other maps `OnRow` makes once and fills again for every row: the old and the new columns of an
      update, what stands under "data" of an event, and the event with its fields. */
  class Pair<Value> {
    var oldData: GoMap?<Value>
    var newData: GoMap?<Value>

    constructor ()
    {
      oldData, newData := null, null;
    }
  }

  datatype Held<Value> = Nothing | Columns(data: GoMap<Value>) | OldAndNew(pair: Pair<Value>)

  class Ed<Value> {
    var held: Held<Value>

    constructor ()
    {
      held := Nothing;
    }
  }

  class RowData<Value> {
    const database: string
    const table: string
    const eventType: string
    const time: int
    var eventIndex: int64
    var event: Ed?<Value>

    constructor (database: string, table: string, eventType: string, time: int)
      ensures this.database == database && this.table == table && this.eventType == eventType && this.time == time
    {
      this.database, this.table, this.eventType, this.time := database, table, eventType, time;
      eventIndex, event := 0, null;
    }
  }

  const RUNNING: bv8 := 1
  const EXIT: bv8 := 2
  const OPENED: bv8 := 4

  class Binlog<Raw, Value> {
    var eventIndex: int64
    var lastBinFile: bytes
    var lastPos: uint32
    var cacheFile: bytes
    var status: bv8
    var notified: seq<Notification<Value>>  // what the services and the agent were sent
    var posChanges: seq<bytes>              // the records the agent was given to broadcast

    function Current(): State
      reads this
    {
      State(eventIndex, Position(lastBinFile, lastPos), cacheFile, status & EXIT != 0, status & OPENED != 0)
    }

    /** A process start: the file left by an earlier life is opened and read. */
    constructor (file: bytes, master: Position)
      ensures Current() == Restored(file, master)
      ensures notified == [] && posChanges == []
    {
      var c := ReadBack(file);
      cacheFile := file;
      status := OPENED;
      eventIndex := c.index;
      notified, posChanges := [], [];
      if c.file != [] && c.pos > 0 {
        lastBinFile := c.file;
        var p := c.pos % TWO_32;
        if c.file == master.file && p > master.pos {
          p := master.pos;
        }
        lastPos := p;
      } else {
        lastBinFile := master.file;
        lastPos := master.pos;
      }
    }

    /** `saveBinlogPositionCache` */
    method SaveBinlogPositionCache(r: bytes)
      modifies this`cacheFile, this`posChanges
      ensures Current() == Saved(old(Current()), r)
      ensures posChanges == old(posChanges) + if old(Current()).exiting then [] else [r]
    {
      if status & EXIT != 0 {
        return;
      }
      if status & OPENED != 0 {
        cacheFile := WriteAt(cacheFile, r);
      }
      posChanges := posChanges + [r];
    }

    /** `OnPosSynced` */
    method OnPosSynced(p: Position)
      modifies this`cacheFile, this`posChanges, this`lastBinFile, this`lastPos
      ensures Current() == Synced(old(Current()), p)
      ensures posChanges == old(posChanges) +
                if old(Current()).exiting then [] else [Record(Checkpoint(p.file, p.pos, old(eventIndex)))]
    {
      var data := PackPos(p.file, p.pos, eventIndex);
      SaveBinlogPositionCache(data[..]);
      lastBinFile := p.file;
      lastPos := p.pos;
    }

    /** `SaveBinlogPosition`: a checkpoint of the leader arrives. The answer tells of a panic. */
    method SaveBinlogPosition(r: bytes) returns (panicked: bool)
      modifies this`cacheFile, this`posChanges, this`lastBinFile, this`lastPos, this`eventIndex
      ensures panicked <==> |r| < 18
      ensures Current() == Installed(old(Current()), r)
      ensures posChanges == old(posChanges) + if panicked || old(Current()).exiting then [] else [r]
    {
      var unpacked := UnpackPos(r);
      if unpacked.None? {
        return true;
      }
      lastBinFile := unpacked.value.file;
      lastPos := unpacked.value.pos % TWO_32;
      eventIndex := unpacked.value.index;
      SaveBinlogPositionCache(r);
      return false;
    }

    /** `notify`: the event is marshalled now, and with it whatever the maps it refers to hold now. */
    method Notify(rowData: RowData<Value>)
      requires rowData.event != null && !rowData.event.held.Nothing?
      requires rowData.event.held.OldAndNew? ==>
                 rowData.event.held.pair.oldData != null && rowData.event.held.pair.newData != null
      modifies this`notified
      ensures notified == old(notified) +
                [Notification(rowData.database, rowData.table, rowData.eventType, rowData.time, rowData.eventIndex,
                              match rowData.event.held
                              case Columns(data) => Data(data.entries)
                              case OldAndNew(pair) => Change(pair.oldData.entries, pair.newData.entries))]
    {
      var held := rowData.event.held;
      var content: Content<Value>;
      match held {
        case Columns(data) =>
          content := Data(data.entries);
        case OldAndNew(pair) =>
          var oldData: GoMap<Value>, newData: GoMap<Value> := pair.oldData, pair.newData;
          content := Change(oldData.entries, newData.entries);
      }
      notified := notified + [Notification(rowData.database, rowData.table, rowData.eventType, rowData.time,
                                           rowData.eventIndex, content)];
    }

    /** `OnRow`. The maps are shared between the rows of an event; what is sent is what they hold when
        it is sent. An update with a row missing panics after it has taken a number for it. */
    method OnRow(e: RowsEvent<Raw>, time: int, decode: (Raw, Column) -> Value) returns (panicked: bool)
      modifies this`eventIndex, this`notified
      ensures status & EXIT != 0 ==> !panicked && notified == old(notified) && eventIndex == old(eventIndex)
      ensures status & EXIT == 0 ==>
                && notified == old(notified) + NotificationsOf(e, Notifications(e), time, old(eventIndex), decode)
                && (panicked <==> e.action == "update" && |e.rows| % 2 == 1)
                && eventIndex == Wrap64(old(eventIndex) + Notifications(e) + if panicked then 1 else 0)
      ensures status & EXIT == 0 ==>
                |notified| >= |old(notified)| &&
                TellsEvent(notified[|old(notified)|..], e, time, old(eventIndex), decode)
    {
      hide DecodeRow, TellsEvent, NotificationsOf;
      if status & EXIT != 0 {
        return false;
      }
      if e.action == "update" {
        panicked := OnUpdate(e, time, decode);
      } else {
        OnInsertOrDelete(e, time, decode);
        panicked := false;
      }
      ghost var told := NotificationsOf(e, Notifications(e), time, old(eventIndex), decode);
      NotificationsTell(e, time, old(eventIndex), decode);
      assert notified[|old(notified)|..] == told;
    }

    /** One round of the update loop. */
    method NotifyPair(e: RowsEvent<Raw>, i: nat, decode: (Raw, Column) -> Value,
                      rowData: RowData<Value>, ed: Ed<Value>, data: Pair<Value>) returns (panicked: bool)
      requires i < |e.rows|
      modifies this`notified, rowData, ed, data
      ensures panicked <==> i + 1 >= |e.rows|
      ensures panicked ==> notified == old(notified)
      ensures !panicked ==>
                notified == old(notified) +
                  [Notification(rowData.database, rowData.table, rowData.eventType, rowData.time,
                                 old(rowData.eventIndex),
                                Change(map[] + DecodeRow(e.columns, e.rows[i], decode),
                                       map[] + DecodeRow(e.columns, e.rows[i + 1], decode)))]
    {
      hide DecodeRow;
      var oldData := new GoMap<Value>();
      var newData := new GoMap<Value>();
      oldData.Fill(e.columns, e.rows[i], decode);
      if i + 1 >= |e.rows| {
        return true;
      }
      newData.Fill(e.columns, e.rows[i + 1], decode);
      data.oldData, data.newData := oldData, newData;
      ed.held := OldAndNew(data);
      rowData.event := ed;
      Notify(rowData);
      return false;
    }

    method OnUpdate(e: RowsEvent<Raw>, time: int, decode: (Raw, Column) -> Value) returns (panicked: bool)
      requires e.action == "update"
      modifies this`eventIndex, this`notified
      ensures notified == old(notified) + NotificationsOf(e, Notifications(e), time, old(eventIndex), decode)
      ensures panicked <==> |e.rows| % 2 == 1
      ensures eventIndex == Wrap64(old(eventIndex) + Notifications(e) + if panicked then 1 else 0)
    {
      hide DecodeRow, NotificationsOf, NotificationAt, Wrap64;
      var rowData := new RowData<Value>(e.schema, e.table, e.action, time);
      var ed := new Ed<Value>();
      var data := new Pair<Value>();
      var i := 0;
      ghost var k := 0;
      NoNotification(e, time, eventIndex, decode);
      while i < |e.rows|
        invariant fresh(rowData) && fresh(ed) && fresh(data)
        invariant i == 2 * k && k <= Notifications(e)
        invariant notified == old(notified) + NotificationsOf(e, k, time, old(eventIndex), decode)
        invariant eventIndex == Wrap64(old(eventIndex) + k)
      {
        WrapNext(old(eventIndex) + k);
        eventIndex := Wrap64(eventIndex + 1);
        rowData.eventIndex := eventIndex;
        panicked := NotifyPair(e, i, decode, rowData, ed, data);
        if panicked {
          return;
        }
        UpdateNotification(e, k, time, old(eventIndex), decode);
        i, k := i + 2, k + 1;
      }
      return false;
    }

    /** One round of the loop for other rows; the columns are filled into a map that may hold those of the
        row before. */
    method NotifyRow(e: RowsEvent<Raw>, i: nat, decode: (Raw, Column) -> Value,
                     rowData: RowData<Value>, ed: Ed<Value>, data: GoMap<Value>)
      requires i < |e.rows|
      requires data.entries.Keys <= set k | 0 <= k < |e.columns| :: e.columns[k].name
      modifies this`notified, rowData, ed, data
      ensures data.entries.Keys <= set k | 0 <= k < |e.columns| :: e.columns[k].name
      ensures notified == old(notified) +
                [Notification(rowData.database, rowData.table, rowData.eventType, rowData.time, old(rowData.eventIndex),
                              Data(DecodeRow(e.columns, e.rows[i], decode)))]
    {
      hide DecodeRow;
      data.Fill(e.columns, e.rows[i], decode);
      DecodeRowKeys(e.columns, e.rows[i], decode);
      assert data.entries == DecodeRow(e.columns, e.rows[i], decode);
      ed.held := Columns(data);
      rowData.event := ed;
      Notify(rowData);
    }

    method OnInsertOrDelete(e: RowsEvent<Raw>, time: int, decode: (Raw, Column) -> Value)
      requires e.action != "update"
      modifies this`eventIndex, this`notified
      ensures notified == old(notified) + NotificationsOf(e, Notifications(e), time, old(eventIndex), decode)
      ensures eventIndex == Wrap64(old(eventIndex) + Notifications(e))
    {
      hide Wrap64, DecodeRow, NotificationsOf;
      var rowData := new RowData<Value>(e.schema, e.table, e.action, time);
      var ed := new Ed<Value>();
      var data := new GoMap<Value>();
      NoNotification(e, time, eventIndex, decode);
      for i := 0 to |e.rows|
        invariant fresh(rowData) && fresh(ed) && fresh(data)
        invariant data.entries.Keys <= set k | 0 <= k < |e.columns| :: e.columns[k].name
        invariant notified == old(notified) + NotificationsOf(e, i, time, old(eventIndex), decode)
        invariant eventIndex == Wrap64(old(eventIndex) + i)
      {
        WrapNext(old(eventIndex) + i);
        eventIndex := Wrap64(eventIndex + 1);
        rowData.eventIndex := eventIndex;
        NotifyRow(e, i, decode, rowData, ed, data);
        NextNotification(e, i, time, old(eventIndex), decode);
      }
    }
  }
}
