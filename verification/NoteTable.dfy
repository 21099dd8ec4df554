/** The notes section of a comment: equal notes of several resources become one row. */
module NoteTable {
  import opened Sequences
  import opened Estimates
  import opened ChangePricing

  datatype Row = Row(note: Note, addresses: seq<string>)

  /** A note as one change carries it. */
  datatype Mention = Mention(note: Note, address: string)

  function MentionsOf(notes: seq<Note>, address: string): seq<Mention> {
    if notes == [] then [] else MentionsOf(Init(notes), address) + [Mention(Last(notes), address)]
  }

  /** Every mention, in reading order. */
  function Mentions(changes: seq<ChangeEstimate>): seq<Mention> {
    if changes == [] then [] else Mentions(Init(changes)) + MentionsOf(Last(changes).notes, Last(changes).address)
  }

  function NotesOf(ms: seq<Mention>): seq<Note> {
    if ms == [] then [] else NotesOf(Init(ms)) + [Last(ms).note]
  }

  function AddressesOf(ms: seq<Mention>, n: Note): seq<string> {
    if ms == [] then []
    else if Last(ms).note == n then AddressesOf(Init(ms), n) + [Last(ms).address]
    else AddressesOf(Init(ms), n)
  }

  function Rows(order: seq<Note>, ms: seq<Mention>): seq<Row> {
    if order == [] then [] else Rows(Init(order), ms) + [Row(Last(order), FirstSeen(AddressesOf(ms, Last(order))))]
  }

  function Table(changes: seq<ChangeEstimate>): seq<Row> {
    Rows(FirstSeen(NotesOf(Mentions(changes))), Mentions(changes))
  }

  /** What the map holds for one note after the mentions `ms`. */
  predicate GatheredFor(byNote: map<Note, seq<string>>, ms: seq<Mention>, n: Note) {
    && (n in byNote <==> n in NotesOf(ms))
    && (n in byNote ==> byNote[n] == FirstSeen(AddressesOf(ms, n)))
  }

  /** What the two accumulators hold after the mentions `ms`. */
  ghost predicate Gathered(byNote: map<Note, seq<string>>, order: seq<Note>, ms: seq<Mention>) {
    order == FirstSeen(NotesOf(ms)) && forall n :: GatheredFor(byNote, ms, n)
  }

  lemma MentionStep(ms: seq<Mention>, m: Mention, n: Note)
    ensures NotesOf(ms + [m]) == NotesOf(ms) + [m.note]
    ensures AddressesOf(ms + [m], n) == if m.note == n then AddressesOf(ms, n) + [m.address] else AddressesOf(ms, n)
  {
    assert Init(ms + [m]) == ms;
  }

  lemma GatherOrder(ms: seq<Mention>, m: Mention)
    ensures var order := FirstSeen(NotesOf(ms));
            FirstSeen(NotesOf(ms + [m])) == if m.note in NotesOf(ms) then order else order + [m.note]
  {
    MentionStep(ms, m, m.note);
    FirstSeenSnoc(NotesOf(ms), m.note);
  }

  lemma GatherAddresses(ms: seq<Mention>, m: Mention)
    ensures var addrs := FirstSeen(AddressesOf(ms, m.note));
            FirstSeen(AddressesOf(ms + [m], m.note)) == if m.address in addrs then addrs else addrs + [m.address]
    ensures m.note !in NotesOf(ms) ==> FirstSeen(AddressesOf(ms, m.note)) == []
  {
    MentionStep(ms, m, m.note);
    FirstSeenSnoc(AddressesOf(ms, m.note), m.address);
    AddressesAbsent(ms, m.note);
  }

  function AddressAdded(byNote: map<Note, seq<string>>, m: Mention): map<Note, seq<string>> {
    var addrs := if m.note in byNote then byNote[m.note] else [];
    byNote[m.note := if m.address in addrs then addrs else addrs + [m.address]]
  }

  lemma GatherFor(byNote: map<Note, seq<string>>, ms: seq<Mention>, m: Mention, n: Note)
    requires GatheredFor(byNote, ms, n) && GatheredFor(byNote, ms, m.note)
    ensures GatheredFor(AddressAdded(byNote, m), ms + [m], n)
  {
    MentionStep(ms, m, n);
    GatherAddresses(ms, m);
  }

  lemma GatherOne(byNote: map<Note, seq<string>>, order: seq<Note>, ms: seq<Mention>, m: Mention)
    requires Gathered(byNote, order, ms)
    ensures Gathered(AddressAdded(byNote, m), if m.note in byNote then order else order + [m.note], ms + [m])
  {
    GatherOrder(ms, m);
    assert GatheredFor(byNote, ms, m.note);
    forall n ensures GatheredFor(AddressAdded(byNote, m), ms + [m], n) {
      GatherFor(byNote, ms, m, n);
    }
  }

  lemma {:induction false} AddressesAbsent(ms: seq<Mention>, n: Note)
    ensures n !in NotesOf(ms) ==> AddressesOf(ms, n) == []
  {
    if ms != [] {
      AddressesAbsent(Init(ms), n);
      assert NotesOf(ms) == NotesOf(Init(ms)) + [Last(ms).note];
      assert n in NotesOf(Init(ms)) ==> n in NotesOf(ms);
      assert Last(NotesOf(ms)) in NotesOf(ms);
    }
  }

  /** The inner search: an address is added to a row once. */
  method AddAddress(addrs: seq<string>, address: string) returns (out: seq<string>)
    ensures out == if address in addrs then addrs else addrs + [address]
  {
    var seen := false;
    for j := 0 to |addrs|
      invariant seen <==> address in addrs[..j]
    {
      if addrs[j] == address {
        seen := true;
        break;
      }
    }
    out := addrs;
    if !seen {
      out := addrs + [address];
    }
  }

  /** The last loop: the rows in first-seen order. */
  method EmitRows(byNote: map<Note, seq<string>>, order: seq<Note>, ghost ms: seq<Mention>) returns (out: seq<Row>)
    requires Gathered(byNote, order, ms)
    ensures out == Rows(order, ms)
  {
    FirstSeenMembers(NotesOf(ms));
    out := [];
    for i := 0 to |order|
      invariant out == Rows(order[..i], ms)
    {
      assert Init(order[..i + 1]) == order[..i];
      assert order[i] in order;
      assert GatheredFor(byNote, ms, order[i]);
      out := out + [Row(order[i], byNote[order[i]])];
    }
    assert order[..|order|] == order;
  }

  method DeduplicateNotes(changes: seq<ChangeEstimate>) returns (out: seq<Row>)
    ensures out == Table(changes)
  {
    var byNote: map<Note, seq<string>> := map[];
    var order: seq<Note> := [];
    for i := 0 to |changes|
      invariant Gathered(byNote, order, Mentions(changes[..i]))
    {
      var c := changes[i];
      assert Init(changes[..i + 1]) == changes[..i];
      ghost var done := Mentions(changes[..i]);
      assert done + [] == done;
      for k := 0 to |c.notes|
        invariant Gathered(byNote, order, done + MentionsOf(c.notes[..k], c.address))
      {
        var n := c.notes[k];
        ghost var ms := done + MentionsOf(c.notes[..k], c.address);
        assert Init(c.notes[..k + 1]) == c.notes[..k];
        assert done + MentionsOf(c.notes[..k + 1], c.address) == ms + [Mention(n, c.address)];
        GatherOne(byNote, order, ms, Mention(n, c.address));
        var addrs := if n in byNote then byNote[n] else [];
        if n !in byNote {
          order := order + [n];
        }
        addrs := AddAddress(addrs, c.address);
        byNote := byNote[n := addrs];
      }
      assert c.notes[..|c.notes|] == c.notes;
    }
    assert changes[..|changes|] == changes;
    out := EmitRows(byNote, order, Mentions(changes));
  }

  // ---- what the table says ----

  lemma {:induction false} MentionsMembers(notes: seq<Note>, address: string)
    ensures forall m :: m in MentionsOf(notes, address) <==> m.address == address && m.note in notes
  {
    if notes != [] {
      MentionsMembers(Init(notes), address);
      assert notes == Init(notes) + [Last(notes)];
    }
  }

  ghost predicate Carries(changes: seq<ChangeEstimate>, m: Mention) {
    exists c :: c in changes && c.address == m.address && m.note in c.notes
  }

  lemma {:induction false} MentionsAre(changes: seq<ChangeEstimate>, m: Mention)
    ensures m in Mentions(changes) <==> Carries(changes, m)
  {
    if changes != [] {
      var c := Last(changes);
      MentionsAre(Init(changes), m);
      MentionsMembers(c.notes, c.address);
      assert forall x :: x in changes <==> x in Init(changes) || x == c by {
        assert changes == Init(changes) + [c];
      }
    }
  }

  lemma {:induction false} AddressMembers(ms: seq<Mention>, n: Note)
    ensures forall a :: a in AddressesOf(ms, n) <==> Mention(n, a) in ms
    ensures n in NotesOf(ms) <==> exists m :: m in ms && m.note == n
  {
    if ms != [] {
      AddressMembers(Init(ms), n);
      assert ms == Init(ms) + [Last(ms)];
      assert NotesOf(ms) == NotesOf(Init(ms)) + [Last(ms).note];
    }
  }

  lemma {:induction false} RowsAre(order: seq<Note>, ms: seq<Mention>)
    ensures |Rows(order, ms)| == |order|
    ensures forall i :: 0 <= i < |order| ==> Rows(order, ms)[i] == Row(order[i], FirstSeen(AddressesOf(ms, order[i])))
  {
    if order != [] {
      RowsAre(Init(order), ms);
    }
  }

  ghost predicate Lists(t: seq<Row>, m: Mention) {
    exists i :: 0 <= i < |t| && t[i].note == m.note && m.address in t[i].addresses
  }

  lemma TableLists(changes: seq<ChangeEstimate>, m: Mention)
    ensures Lists(Table(changes), m) <==> Carries(changes, m)
  {
    var t, ms := Table(changes), Mentions(changes);
    var order := FirstSeen(NotesOf(ms));
    FirstSeenMembers(NotesOf(ms));
    RowsAre(order, ms);
    MentionsAre(changes, m);
    RowAddresses(ms, m.note);
    if m in ms {
      assert m.note in order;
      var i :| 0 <= i < |order| && order[i] == m.note;
      assert t[i].note == m.note;
    }
  }

  function RowNotes(t: seq<Row>): (r: seq<Note>)
    ensures |r| == |t| && forall i :: 0 <= i < |t| ==> r[i] == t[i].note
  {
    seq(|t|, i requires 0 <= i < |t| => t[i].note)
  }

  /** The table holds exactly the pairs the changes carry, each note in one row and each
      address once in it, notes and addresses in the order they are first mentioned. */
  lemma {:induction false} TableIsFaithful(changes: seq<ChangeEstimate>)
    ensures var t := Table(changes);
            && (forall i, j :: 0 <= i < j < |t| ==> t[i].note != t[j].note)
            && (forall i :: 0 <= i < |t| ==> NoRepeats(t[i].addresses) && t[i].addresses != [])
    ensures forall m :: Lists(Table(changes), m) <==> Carries(changes, m)
    ensures InFirstSeenOrder(RowNotes(Table(changes)), NotesOf(Mentions(changes)))
    ensures var t := Table(changes);
            forall i :: 0 <= i < |t| ==> InFirstSeenOrder(t[i].addresses, AddressesOf(Mentions(changes), t[i].note))
  {
    TableOrder(changes);
    var t, ms := Table(changes), Mentions(changes);
    var order := FirstSeen(NotesOf(ms));
    FirstSeenMembers(NotesOf(ms));
    RowsAre(order, ms);
    forall i | 0 <= i < |t| ensures NoRepeats(t[i].addresses) && t[i].addresses != [] {
      RowAddresses(ms, order[i]);
    }
    forall m ensures Lists(t, m) <==> Carries(changes, m) {
      TableLists(changes, m);
    }
  }

  lemma {:induction false} TableOrder(changes: seq<ChangeEstimate>)
    ensures InFirstSeenOrder(RowNotes(Table(changes)), NotesOf(Mentions(changes)))
    ensures var t := Table(changes);
            forall i :: 0 <= i < |t| ==> InFirstSeenOrder(t[i].addresses, AddressesOf(Mentions(changes), t[i].note))
  {
    var t, ms := Table(changes), Mentions(changes);
    var order := FirstSeen(NotesOf(ms));
    RowsAre(order, ms);
    assert RowNotes(t) == order;
    FirstSeenOrder(NotesOf(ms));
    forall i | 0 <= i < |t| ensures InFirstSeenOrder(t[i].addresses, AddressesOf(ms, t[i].note)) {
      FirstSeenOrder(AddressesOf(ms, order[i]));
    }
  }

  lemma RowAddresses(ms: seq<Mention>, n: Note)
    ensures NoRepeats(FirstSeen(AddressesOf(ms, n)))
    ensures forall a :: a in FirstSeen(AddressesOf(ms, n)) <==> Mention(n, a) in ms
    ensures n in NotesOf(ms) ==> FirstSeen(AddressesOf(ms, n)) != []
    ensures forall a :: Mention(n, a) in ms ==> n in NotesOf(ms)
  {
    AddressMembers(ms, n);
    FirstSeenMembers(AddressesOf(ms, n));
    if n in NotesOf(ms) {
      var m :| m in ms && m.note == n;
      assert Mention(n, m.address) == m;
    }
  }
}
