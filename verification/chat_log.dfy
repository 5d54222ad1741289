/**
 * What both `Agent` classes share: the entries of a conversation history and the
 * system directive an agent starts its history with.
 */
module ChatLog {
  import opened PyText

  /** The `role` of a history entry. */
  datatype Role = System | User | Assistant

  /** One history entry: `{"role": ..., "content": ...}`. */
  datatype Entry<M> = Entry(role: Role, content: M)

  /**
   * A history as `chat` and `reset` leave it: the system entry first, then
   * exchanges of one user entry followed by one assistant entry.
   */
  ghost predicate WellFormed<M>(h: seq<Entry<M>>) {
    |h| % 2 == 1 && h[0].role == System &&
    forall i :: 1 <= i < |h| ==> h[i].role == (if i % 2 == 1 then User else Assistant)
  }

  /** One exchange appended to a well-formed history keeps it well-formed. */
  lemma Exchange<M>(h: seq<Entry<M>>, message: M, reply: M)
    requires WellFormed(h)
    ensures WellFormed(h + [Entry(User, message), Entry(Assistant, reply)])
  {
  }

  /** A history grown from `history + [u, a]` still starts with `history`, then `u` and `a`. */
  lemma Extended<T>(history: seq<T>, u: T, a: T, later: seq<T>)
    requires history + [u, a] <= later
    ensures history <= later && |later| >= |history| + 2
    ensures later[|history|] == u && later[|history| + 1] == a
  {
    assert later[..|history| + 2] == history + [u, a];
    assert later[..|history|] == later[..|history| + 2][..|history|];
  }

  /** Appending an exchange keeps every prefix and puts the exchange last. */
  lemma Appended<T>(history: seq<T>, mid: seq<T>, u: T, a: T)
    requires history <= mid
    ensures history <= mid + [u, a]
    ensures (mid + [u, a])[|mid|] == u && (mid + [u, a])[|mid| + 1] == a
  {
    assert (mid + [u, a])[..|history|] == mid[..|history|];
  }

  /** `[history[0]]`: the history cut back to its system entry. */
  function Restart<M>(h: seq<Entry<M>>): (r: seq<Entry<M>>)
    requires h != []
    ensures |r| == 1 && r[0] == h[0]
  {
    h[..1]
  }

  /** Restarting keeps a history well-formed, and restarting twice is restarting once. */
  lemma RestartRule<M>(h: seq<Entry<M>>)
    requires WellFormed(h)
    ensures WellFormed(Restart(h))
    ensures Restart(Restart(h)) == Restart(h)
  {
  }

  /** `filter(None, [f.strip() for f in fields])`: the stripped fields that are not empty, in order. */
  function Kept(fields: seq<string>): (kept: seq<string>)
    ensures |kept| <= |fields|
    ensures forall i :: 0 <= i < |kept| ==> kept[i] != [] && Stripped(kept[i])
  {
    if fields == [] then []
    else if AllSpace(fields[0]) then Kept(fields[1..])
    else [Strip(fields[0])] + Kept(fields[1..])
  }

  /** `"\n\n".join(filter(None, [f.strip() for f in fields]))`. */
  function SystemDirective(fields: seq<string>): string {
    Join("\n\n", Kept(fields))
  }

  /** Nothing is kept exactly when every field is blank. */
  lemma {:induction false} KeptEmpty(fields: seq<string>)
    ensures Kept(fields) == [] <==> forall i :: 0 <= i < |fields| ==> AllSpace(fields[i])
  {
    if fields != [] {
      KeptEmpty(fields[1..]);
      assert forall i :: 1 <= i < |fields| ==> fields[i] == fields[1..][i - 1];
    }
  }

  /** A join of non-empty parts starts with the first part's first character and ends with the last part's last. */
  lemma {:induction false} JoinEnds(sep: string, parts: seq<string>)
    requires parts != []
    requires forall i :: 0 <= i < |parts| ==> parts[i] != []
    ensures Join(sep, parts) != []
    ensures Join(sep, parts)[0] == parts[0][0]
    ensures Join(sep, parts)[|Join(sep, parts)| - 1] == parts[|parts| - 1][|parts[|parts| - 1]| - 1]
  {
    if |parts| > 1 {
      JoinEnds(sep, parts[1..]);
    }
  }

  /**
   * The directive has no whitespace at either end, and it is empty exactly when
   * every field is blank.
   */
  lemma DirectiveShape(fields: seq<string>)
    ensures Stripped(SystemDirective(fields))
    ensures SystemDirective(fields) == [] <==> forall i :: 0 <= i < |fields| ==> AllSpace(fields[i])
  {
    var kept := Kept(fields);
    KeptEmpty(fields);
    if kept != [] {
      JoinEnds("\n\n", kept);
      assert Stripped(kept[0]) && Stripped(kept[|kept| - 1]);
    }
  }

  /** A directive built from a single non-blank field is that field, stripped. */
  lemma DirectiveOfOne(fields: seq<string>, k: nat)
    requires k < |fields| && !AllSpace(fields[k])
    requires forall i :: 0 <= i < |fields| && i != k ==> AllSpace(fields[i])
    ensures SystemDirective(fields) == Strip(fields[k])
  {
    KeptOne(fields, k);
  }

  /** A single field is kept, stripped, exactly when it is not blank. */
  lemma KeptSingle(f: string)
    ensures Kept([f]) == (if AllSpace(f) then [] else [Strip(f)])
  {
  }

  /**
   * Filtering a concatenation filters each part and keeps them in order, so with
   * `KeptSingle` the kept parts are the non-blank fields, stripped, in field order.
   */
  lemma {:induction false} KeptAppend(a: seq<string>, b: seq<string>)
    ensures Kept(a + b) == Kept(a) + Kept(b)
  {
    if a != [] {
      var rest := a[1..];
      assert (a + b)[0] == a[0] && (a + b)[1..] == rest + b;
      KeptAppend(rest, b);
      if !AllSpace(a[0]) {
        var x := [Strip(a[0])];
        assert x + (Kept(rest) + Kept(b)) == (x + Kept(rest)) + Kept(b);
      }
    } else {
      assert a + b == b;
    }
  }

  /** Three fields are filtered one at a time, in order. */
  lemma KeptThree(a: string, b: string, c: string)
    ensures Kept([a, b, c]) == Kept([a]) + Kept([b]) + Kept([c])
  {
    assert [a, b, c] == [a] + [b, c];
    assert [b, c] == [b] + [c];
    KeptAppend([a], [b, c]);
    KeptAppend([b], [c]);
  }

  /** Four fields are filtered one at a time, in order. */
  lemma KeptFour(a: string, b: string, c: string, d: string)
    ensures Kept([a, b, c, d]) == Kept([a]) + Kept([b]) + Kept([c]) + Kept([d])
  {
    assert [a, b, c, d] == [a, b, c] + [d];
    KeptAppend([a, b, c], [d]);
    KeptThree(a, b, c);
  }

  /**
   * With exactly two non-blank fields, the directive is the earlier one, a blank
   * line, then the later one: the fields keep their order.
   */
  lemma DirectiveOfTwo(fields: seq<string>, j: nat, k: nat)
    requires j < k < |fields| && !AllSpace(fields[j]) && !AllSpace(fields[k])
    requires forall i :: 0 <= i < |fields| && i != j && i != k ==> AllSpace(fields[i])
    ensures SystemDirective(fields) == Strip(fields[j]) + "\n\n" + Strip(fields[k])
  {
    KeptTwo(fields, j, k);
    JoinTwo("\n\n", Strip(fields[j]), Strip(fields[k]));
  }

  lemma JoinTwo(sep: string, x: string, y: string)
    ensures Join(sep, [x, y]) == x + sep + y
  {
    assert [x, y][1..] == [y];
  }

  lemma {:induction false} KeptTwo(fields: seq<string>, j: nat, k: nat)
    requires j < k < |fields| && !AllSpace(fields[j]) && !AllSpace(fields[k])
    requires forall i :: 0 <= i < |fields| && i != j && i != k ==> AllSpace(fields[i])
    ensures Kept(fields) == [Strip(fields[j]), Strip(fields[k])]
  {
    var rest := fields[1..];
    assert forall i :: 1 <= i < |fields| ==> fields[i] == rest[i - 1];
    if j == 0 {
      KeptOne(rest, k - 1);
    } else {
      KeptTwo(rest, j - 1, k - 1);
    }
  }

  lemma {:induction false} KeptOne(fields: seq<string>, k: nat)
    requires k < |fields| && !AllSpace(fields[k])
    requires forall i :: 0 <= i < |fields| && i != k ==> AllSpace(fields[i])
    ensures Kept(fields) == [Strip(fields[k])]
  {
    var rest := fields[1..];
    assert forall i :: 1 <= i < |fields| ==> fields[i] == rest[i - 1];
    if k == 0 {
      KeptEmpty(rest);
    } else {
      KeptOne(rest, k - 1);
    }
  }
}
