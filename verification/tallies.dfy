/**
 * The per-name tallies of the statistics: one pass over the result rows that keeps,
 * for every debater (or debater model), appearances, wins and scores, and, for
 * every judge (or judge model), verdicts and their outcome on the premise. The
 * tallies are insertion-ordered dictionaries, as Python's are.
 */
module Tallies {
  import opened Wrappers
  import opened Roles
  import opened RunRow

  // ---------------------------------------------------------------------------
  // Insertion-ordered dictionaries
  // ---------------------------------------------------------------------------

  /** A dictionary with the order in which its keys were first stored. */
  datatype Book<T> = Book(order: seq<string>, entries: map<string, T>)

  /** The order lists each key once, and exactly the keys of the dictionary. */
  ghost predicate Ordered<T>(b: Book<T>) {
    (forall i, j :: 0 <= i < j < |b.order| ==> b.order[i] != b.order[j]) &&
    (forall k :: k in b.entries <==> k in b.order)
  }

  /** `d[k] = v`: a new key goes to the end of the order. */
  function Put<T>(b: Book<T>, k: string, v: T): Book<T> {
    Book(if k in b.entries then b.order else b.order + [k], b.entries[k := v])
  }

  /** Putting one key leaves every other key as it was. */
  lemma PutOther<T>(b: Book<T>, j: string, v: T, k: string)
    requires j != k
    ensures k in Put(b, j, v).entries <==> k in b.entries
    ensures k in b.entries ==> Put(b, j, v).entries[k] == b.entries[k]
  {
  }

  lemma PutOrdered<T>(b: Book<T>, k: string, v: T)
    requires Ordered(b)
    ensures Ordered(Put(b, k, v))
  {
  }

  // ---------------------------------------------------------------------------
  // Debaters
  // ---------------------------------------------------------------------------

  /**
   * One seat of a row: the key it is tallied under (the debater's name, or its
   * model), the debater's name, and the side it is first recorded with.
   */
  datatype Seat = Seat(key: Option<string>, name: Option<string>, side: string)

  /** The "for" seat of a row. */
  function ForSeat(row: Row, byModel: bool): Seat {
    Seat(if byModel then row.modelFor else row.agentFor, row.agentFor, "for")
  }

  /** The "against" seat of a row. */
  function AgainstSeat(row: Row, byModel: bool): Seat {
    Seat(if byModel then row.modelAgainst else row.agentAgainst, row.agentAgainst, "against")
  }

  /** The two seats of a row, in the order they are visited. */
  function Seats(row: Row, byModel: bool): seq<Seat> {
    [ForSeat(row, byModel), AgainstSeat(row, byModel)]
  }

  /** Appearances, wins, and the sum and number of the scores received. */
  datatype DebaterTally = DebaterTally(n: nat, wins: nat, scoreSum: int, scoreN: nat, side: string)

  /** Whether the row's winner is the seat's debater (two missing values compare equal). */
  predicate Won(seat: Seat, row: Row) {
    row.winner == seat.name
  }

  /** Whether the row's scores hold one for the seat's debater. */
  predicate Scored(seat: Seat, row: Row) {
    seat.name.Some? && seat.name.value in row.scores
  }

  /** One appearance added to a tally. */
  function Seated(d: DebaterTally, seat: Seat, row: Row): DebaterTally {
    DebaterTally(
      d.n + 1,
      d.wins + (if Won(seat, row) then 1 else 0),
      d.scoreSum + (if Scored(seat, row) then row.scores[seat.name.value] else 0),
      d.scoreN + (if Scored(seat, row) then 1 else 0),
      d.side)
  }

  /** One seat's effect: nothing without a key, else one more appearance under that key. */
  function SeatInto(b: Book<DebaterTally>, seat: Seat, row: Row): Book<DebaterTally> {
    if !Truthy(seat.key) then b
    else
      var k := seat.key.value;
      var d := if k in b.entries then b.entries[k] else DebaterTally(0, 0, 0, 0, seat.side);
      Put(b, k, Seated(d, seat, row))
  }

  /** One row's effect: its "for" seat, then its "against" seat. */
  function RowInto(b: Book<DebaterTally>, row: Row, byModel: bool): Book<DebaterTally> {
    SeatInto(SeatInto(b, ForSeat(row, byModel), row), AgainstSeat(row, byModel), row)
  }

  /** The debater tallies after the given rows. */
  function DebaterBook(rows: seq<Row>, byModel: bool): Book<DebaterTally> {
    if rows == [] then Book([], map[])
    else RowInto(DebaterBook(rows[..|rows| - 1], byModel), rows[|rows| - 1], byModel)
  }

  /** A seat together with the row it belongs to. */
  datatype Sitting = Sitting(seat: Seat, row: Row)

  /** Every seat of every row, in the order the tally visits them. */
  function Sittings(rows: seq<Row>, byModel: bool): (ss: seq<Sitting>)
    ensures |ss| == 2 * |rows|
  {
    if rows == [] then []
    else
      var row := rows[|rows| - 1];
      Sittings(rows[..|rows| - 1], byModel) + [Sitting(ForSeat(row, byModel), row), Sitting(AgainstSeat(row, byModel), row)]
  }

  /** The tallies after the given seats, one seat at a time. */
  function SeatFold(ss: seq<Sitting>): Book<DebaterTally> {
    if ss == [] then Book([], map[])
    else SeatInto(SeatFold(ss[..|ss| - 1]), ss[|ss| - 1].seat, ss[|ss| - 1].row)
  }

  /** Tallying row by row is tallying seat by seat. */
  lemma {:induction false} BookIsSeatFold(rows: seq<Row>, byModel: bool)
    ensures DebaterBook(rows, byModel) == SeatFold(Sittings(rows, byModel))
  {
    if rows != [] {
      var prefix, row := rows[..|rows| - 1], rows[|rows| - 1];
      BookIsSeatFold(prefix, byModel);
      var s := Sittings(prefix, byModel);
      var x, y := Sitting(ForSeat(row, byModel), row), Sitting(AgainstSeat(row, byModel), row);
      assert (s + [x, y])[..|s| + 1] == s + [x];
      assert (s + [x])[..|s|] == s;
    }
  }

  /** One debater's totals, counted seat by seat. */
  datatype Totals = Totals(n: nat, wins: nat, scoreSum: int, scoreN: nat)

  /** What one seat adds to the totals of `k`. */
  function Share(seat: Seat, row: Row, k: string): (t: Totals)
    ensures t.wins <= t.n <= 1 && t.scoreN <= t.n
  {
    if seat.key != Some(k) then Totals(0, 0, 0, 0)
    else
      Totals(1, if Won(seat, row) then 1 else 0,
             if Scored(seat, row) then row.scores[seat.name.value] else 0,
             if Scored(seat, row) then 1 else 0)
  }

  function Plus(a: Totals, b: Totals): Totals {
    Totals(a.n + b.n, a.wins + b.wins, a.scoreSum + b.scoreSum, a.scoreN + b.scoreN)
  }

  /**
   * The totals of key `k` over the seats: its appearances, the appearances its
   * debater won, and the scores its debater received.
   */
  function TotalsOf(ss: seq<Sitting>, k: string): (t: Totals)
    ensures t.wins <= t.n <= |ss| && t.scoreN <= t.n
  {
    if ss == [] then Totals(0, 0, 0, 0)
    else Plus(TotalsOf(ss[..|ss| - 1], k), Share(ss[|ss| - 1].seat, ss[|ss| - 1].row, k))
  }

  /** The side of the first seat with key `k`, if any. */
  function FirstSide(ss: seq<Sitting>, k: string): Option<string> {
    if ss == [] then None
    else
      var before, seat := FirstSide(ss[..|ss| - 1], k), ss[|ss| - 1].seat;
      if before.Some? || seat.key != Some(k) then before else Some(seat.side)
  }

  /** The tally of `k` in the book agrees with the totals and the first side. */
  predicate Agrees(b: Book<DebaterTally>, k: string, t: Totals, first: Option<string>) {
    (k in b.entries <==> t.n > 0) && (first.Some? <==> t.n > 0) && (t.n == 0 ==> t == Totals(0, 0, 0, 0)) &&
    (k in b.entries ==>
       b.entries[k] == DebaterTally(t.n, t.wins, t.scoreSum, t.scoreN, first.value))
  }

  lemma SeatAgrees(b: Book<DebaterTally>, seat: Seat, row: Row, k: string, t: Totals, first: Option<string>)
    requires k != "" && Agrees(b, k, t, first)
    ensures Agrees(SeatInto(b, seat, row), k, Plus(t, Share(seat, row, k)),
                   if first.Some? || seat.key != Some(k) then first else Some(seat.side))
  {
    if seat.key == Some(k) {
      OwnSeatAgrees(b, seat, row, k, t, first);
    } else {
      OtherSeatAgrees(b, seat, row, k, t, first);
      assert Plus(t, Share(seat, row, k)) == t;
    }
  }

  /** A seat of `k` adds its share to the tally of `k`. */
  lemma OwnSeatAgrees(b: Book<DebaterTally>, seat: Seat, row: Row, k: string, t: Totals, first: Option<string>)
    requires k != "" && Agrees(b, k, t, first) && seat.key == Some(k)
    ensures Agrees(SeatInto(b, seat, row), k, Plus(t, Share(seat, row, k)),
                   if first.Some? then first else Some(seat.side))
  {
    var d := if k in b.entries then b.entries[k] else DebaterTally(0, 0, 0, 0, seat.side);
    assert SeatInto(b, seat, row).entries[k] == Seated(d, seat, row);
  }

  /** A seat of another key leaves the tally of `k` alone. */
  lemma OtherSeatAgrees(b: Book<DebaterTally>, seat: Seat, row: Row, k: string, t: Totals, first: Option<string>)
    requires k != "" && Agrees(b, k, t, first) && seat.key != Some(k)
    ensures Agrees(SeatInto(b, seat, row), k, t, first)
  {
    var after := SeatInto(b, seat, row);
    if Truthy(seat.key) {
      var j := seat.key.value;
      var d := if j in b.entries then b.entries[j] else DebaterTally(0, 0, 0, 0, seat.side);
      var v := Seated(d, seat, row);
      assert after == Put(b, j, v);
      PutOther(b, j, v, k);
    } else {
      assert after == b;
    }
    assert k in after.entries <==> k in b.entries;
    if k in b.entries {
      assert after.entries[k] == b.entries[k];
    }
  }

  lemma {:induction false} SeatCounts(ss: seq<Sitting>, k: string)
    requires k != ""
    ensures Agrees(SeatFold(ss), k, TotalsOf(ss, k), FirstSide(ss, k))
  {
    if ss != [] {
      var prefix, last := ss[..|ss| - 1], ss[|ss| - 1];
      SeatCounts(prefix, k);
      SeatAgrees(SeatFold(prefix), last.seat, last.row, k, TotalsOf(prefix, k), FirstSide(prefix, k));
    }
  }

  /**
   * For every non-empty key, the tally holds its appearances, wins and scores as
   * counted over every seat of every row, and the side of the seat it was first
   * seen in; a key that never appears has no tally, and neither does the empty key.
   */
  lemma {:induction false} DebaterCounts(rows: seq<Row>, byModel: bool, k: string)
    ensures k == "" ==> k !in DebaterBook(rows, byModel).entries
    ensures k != "" ==>
      var ss := Sittings(rows, byModel);
      Agrees(DebaterBook(rows, byModel), k, TotalsOf(ss, k), FirstSide(ss, k))
  {
    if k != "" {
      BookIsSeatFold(rows, byModel);
      SeatCounts(Sittings(rows, byModel), k);
    } else if rows != [] {
      DebaterCounts(rows[..|rows| - 1], byModel, k);
      EmptyKeyAbsent(DebaterBook(rows[..|rows| - 1], byModel), rows[|rows| - 1], byModel);
    }
  }

  lemma EmptyKeyAbsent(b: Book<DebaterTally>, row: Row, byModel: bool)
    requires "" !in b.entries
    ensures "" !in RowInto(b, row, byModel).entries
  {
  }

  /** The debater book lists each key once, in order of first appearance. */
  lemma {:induction false} DebaterBookOrdered(rows: seq<Row>, byModel: bool)
    ensures Ordered(DebaterBook(rows, byModel))
  {
    if rows != [] {
      var prefix, row := rows[..|rows| - 1], rows[|rows| - 1];
      DebaterBookOrdered(prefix, byModel);
      var b0 := DebaterBook(prefix, byModel);
      SeatOrdered(b0, ForSeat(row, byModel), row);
      SeatOrdered(SeatInto(b0, ForSeat(row, byModel), row), AgainstSeat(row, byModel), row);
    }
  }

  lemma SeatOrdered(b: Book<DebaterTally>, seat: Seat, row: Row)
    requires Ordered(b)
    ensures Ordered(SeatInto(b, seat, row))
  {
    if Truthy(seat.key) {
      var k := seat.key.value;
      var d := if k in b.entries then b.entries[k] else DebaterTally(0, 0, 0, 0, seat.side);
      PutOrdered(b, k, Seated(d, seat, row));
    }
  }

  /** Tallies the debaters (by name, or by model) over the rows. */
  method TallyDebaters(rows: seq<Row>, byModel: bool) returns (book: Book<DebaterTally>)
    ensures book == DebaterBook(rows, byModel)
  {
    book := Book([], map[]);
    for i := 0 to |rows|
      invariant book == DebaterBook(rows[..i], byModel)
    {
      assert rows[..i + 1][..i] == rows[..i];
      var row := rows[i];
      var seats := Seats(row, byModel);
      ghost var start := book;
      for j := 0 to 2
        invariant j == 0 ==> book == start
        invariant j == 1 ==> book == SeatInto(start, seats[0], row)
        invariant j == 2 ==> book == RowInto(start, row, byModel)
      {
        book := AddSeat(book, seats[j], row);
      }
    }
    assert rows[..|rows|] == rows;
  }

  /** One pass of the inner loop: a keyed seat starts or updates its tally. */
  method AddSeat(book: Book<DebaterTally>, seat: Seat, row: Row) returns (after: Book<DebaterTally>)
    ensures after == SeatInto(book, seat, row)
  {
    after := book;
    if Truthy(seat.key) {
      var k := seat.key.value;
      ghost var d0 := if k in book.entries then book.entries[k] else DebaterTally(0, 0, 0, 0, seat.side);
      if k !in after.entries {
        after := Put(after, k, DebaterTally(0, 0, 0, 0, seat.side));
      }
      var d := after.entries[k];
      d := d.(n := d.n + 1);
      if row.winner == seat.name {
        d := d.(wins := d.wins + 1);
      }
      if seat.name.Some? && seat.name.value in row.scores {
        d := d.(scoreSum := d.scoreSum + row.scores[seat.name.value], scoreN := d.scoreN + 1);
      }
      assert d == Seated(d0, seat, row);
      after := Put(after, k, d);
      assert after == Put(book, k, d);
    }
  }

  // ---------------------------------------------------------------------------
  // Judges
  // ---------------------------------------------------------------------------

  /** Verdicts given, and how many upheld and rejected the premise. */
  datatype JudgeTally = JudgeTally(n: nat, upheld: nat, rejected: nat)

  /** The key a row's verdict is tallied under: the judge's name, or its model. */
  function JudgeKey(row: Row, byModel: bool): Option<string> {
    if byModel then row.modelJudge else row.judge
  }

  /** One verdict added to a tally; only an outcome that is exactly true or false counts. */
  function Judged(d: JudgeTally, row: Row): JudgeTally {
    JudgeTally(
      d.n + 1,
      d.upheld + (if row.premiseUpheld == Some(true) then 1 else 0),
      d.rejected + (if row.premiseUpheld == Some(false) then 1 else 0))
  }

  function JudgeInto(b: Book<JudgeTally>, row: Row, byModel: bool): Book<JudgeTally> {
    var key := JudgeKey(row, byModel);
    if !Truthy(key) then b
    else
      var k := key.value;
      Put(b, k, Judged(if k in b.entries then b.entries[k] else JudgeTally(0, 0, 0), row))
  }

  /** The judge tallies after the given rows. */
  function JudgeBook(rows: seq<Row>, byModel: bool): Book<JudgeTally> {
    if rows == [] then Book([], map[])
    else JudgeInto(JudgeBook(rows[..|rows| - 1], byModel), rows[|rows| - 1], byModel)
  }

  /** The rows whose verdict is tallied under `k`. */
  function JudgedBy(rows: seq<Row>, byModel: bool, k: string): (r: seq<Row>)
    ensures |r| <= |rows|
  {
    if rows == [] then []
    else
      var row := rows[|rows| - 1];
      JudgedBy(rows[..|rows| - 1], byModel, k) + (if JudgeKey(row, byModel) == Some(k) then [row] else [])
  }

  /** The number of rows with the given outcome on the premise. */
  function Outcomes(rows: seq<Row>, outcome: bool): (c: nat)
    ensures c <= |rows|
  {
    if rows == [] then 0
    else Outcomes(rows[..|rows| - 1], outcome) + (if rows[|rows| - 1].premiseUpheld == Some(outcome) then 1 else 0)
  }

  /** Upheld and rejected verdicts never outnumber the verdicts. */
  lemma {:induction false} OutcomesBound(rows: seq<Row>)
    ensures Outcomes(rows, true) + Outcomes(rows, false) <= |rows|
  {
    if rows != [] {
      OutcomesBound(rows[..|rows| - 1]);
    }
  }

  /**
   * For every non-empty key, the tally counts the rows judged under it, and among
   * them those that upheld and those that rejected the premise; a key that judged
   * nothing has no tally, and neither does the empty key.
   */
  lemma {:induction false} JudgeCounts(rows: seq<Row>, byModel: bool, k: string)
    ensures k == "" ==> k !in JudgeBook(rows, byModel).entries
    ensures k != "" ==> (k in JudgeBook(rows, byModel).entries <==> JudgedBy(rows, byModel, k) != [])
    ensures k in JudgeBook(rows, byModel).entries ==>
      var mine := JudgedBy(rows, byModel, k);
      JudgeBook(rows, byModel).entries[k] == JudgeTally(|mine|, Outcomes(mine, true), Outcomes(mine, false))
  {
    if rows != [] {
      var prefix, row := rows[..|rows| - 1], rows[|rows| - 1];
      JudgeCounts(prefix, byModel, k);
      JudgeRowCounts(JudgeBook(prefix, byModel), row, byModel, k, JudgedBy(prefix, byModel, k));
    }
  }

  lemma JudgeRowCounts(b: Book<JudgeTally>, row: Row, byModel: bool, k: string, mine: seq<Row>)
    requires k == "" ==> k !in b.entries
    requires k != "" ==> (k in b.entries <==> mine != [])
    requires k in b.entries ==> b.entries[k] == JudgeTally(|mine|, Outcomes(mine, true), Outcomes(mine, false))
    ensures var after, more := JudgeInto(b, row, byModel), mine + (if JudgeKey(row, byModel) == Some(k) then [row] else []);
      (k == "" ==> k !in after.entries) &&
      (k != "" ==> (k in after.entries <==> more != [])) &&
      (k in after.entries ==> after.entries[k] == JudgeTally(|more|, Outcomes(more, true), Outcomes(more, false)))
  {
    var key := JudgeKey(row, byModel);
    if key == Some(k) && k != "" {
      var more := mine + [row];
      assert more[..|more| - 1] == mine;
    } else {
      assert mine + [] == mine;
      if Truthy(key) {
        var after := JudgeInto(b, row, byModel);
        assert after.entries == b.entries[key.value := after.entries[key.value]];
      }
    }
  }

  /** The judge book lists each key once, in order of first appearance. */
  lemma {:induction false} JudgeBookOrdered(rows: seq<Row>, byModel: bool)
    ensures Ordered(JudgeBook(rows, byModel))
  {
    if rows != [] {
      var prefix, row := rows[..|rows| - 1], rows[|rows| - 1];
      JudgeBookOrdered(prefix, byModel);
      var b := JudgeBook(prefix, byModel);
      var key := JudgeKey(row, byModel);
      if Truthy(key) {
        var k := key.value;
        PutOrdered(b, k, Judged(if k in b.entries then b.entries[k] else JudgeTally(0, 0, 0), row));
      }
    }
  }

  /** Tallies the judges (by name, or by model) over the rows. */
  method TallyJudges(rows: seq<Row>, byModel: bool) returns (book: Book<JudgeTally>)
    ensures book == JudgeBook(rows, byModel)
  {
    book := Book([], map[]);
    for i := 0 to |rows|
      invariant book == JudgeBook(rows[..i], byModel)
    {
      assert rows[..i + 1][..i] == rows[..i];
      var row := rows[i];
      var key := JudgeKey(row, byModel);
      if Truthy(key) {
        var k := key.value;
        if k !in book.entries {
          book := Put(book, k, JudgeTally(0, 0, 0));
        }
        var d := book.entries[k];
        d := d.(n := d.n + 1);
        if row.premiseUpheld == Some(true) {
          d := d.(upheld := d.upheld + 1);
        } else if row.premiseUpheld == Some(false) {
          d := d.(rejected := d.rejected + 1);
        }
        book := Put(book, k, d);
      }
    }
    assert rows[..|rows|] == rows;
  }
}
