/**
 * The contact import: a VCF file is split into lines on "\n" and read line by line; each card
 * between BEGIN:VCARD and END:VCARD contributes its FN: name and its first TEL number, and the
 * cards whose lower-cased names are not yet creditors become new creditors in front of the list.
 *
 * The parser keeps one mutable contact object and pushes that object itself, not a copy, at
 * END:VCARD; it is replaced only at the next BEGIN:VCARD.  A FN or TEL line between an END and
 * the next BEGIN therefore rewrites a contact already emitted.  `ReadVcfAsWritten` models that
 * on heap objects against a value model of the heap; `ReadVcf` is the corrected parser, which
 * pushes a snapshot, and the rest of the model uses it.
 */
module Vcf {
  import opened Text
  import opened Records
  import opened Seqs

  /** A contact as the import reads it. */
  datatype Card = Card(name: string, phone: string)

  const Blank := Card("", "")

  /** What one line of the file means to the parser, tested in the source's order on the
      upper-cased line. */
  datatype LineKind = BeginCard | EndCard | NameLine(name: string) | TelLine(phone: string) | OtherLine

  /** `line.substring(3).trim()` for FN:, and for TEL `line.substring(line.indexOf(':') + 1).trim()`,
      which is the whole trimmed line when it has no ':'. */
  function Classify(line: string): (k: LineKind)
    ensures k.NameLine? ==> IsTrimmed(k.name)
  {
    var u := Upper(line);
    if HasPrefix(u, "BEGIN:VCARD") then BeginCard
    else if HasPrefix(u, "END:VCARD") then EndCard
    else if HasPrefix(u, "FN:") then (TrimSlice(line[3..]); NameLine(Trim(line[3..])))
    else if HasPrefix(u, "TEL") then TelLine(Trim(line[IndexOfChar(line, ':') + 1..]))
    else OtherLine
  }

  // ---------------------------------------------------------------------------------------
  // The corrected parser: a snapshot of the contact is emitted at END:VCARD.

  datatype Reader = Reader(cards: seq<Card>, current: Card)

  function ReadLine(r: Reader, line: string): Reader {
    match Classify(line)
    case BeginCard => r.(current := Blank)
    case EndCard => if r.current.name != "" then r.(cards := r.cards + [r.current]) else r
    case NameLine(n) => r.(current := r.current.(name := n))
    case TelLine(p) => if r.current.phone == "" then r.(current := r.current.(phone := p)) else r
    case OtherLine => r
  }

  function ReadLines(lines: seq<string>): Reader {
    if lines == [] then Reader([], Blank)
    else ReadLine(ReadLines(lines[..|lines| - 1]), lines[|lines| - 1])
  }

  function ParseCards(text: string): seq<Card> {
    ReadLines(SplitLines(text)).cards
  }

  /** Every card the corrected parser emits has a non-empty, trimmed name. */
  lemma {:induction false} CardsAreNamed(lines: seq<string>)
    ensures forall c :: c in ReadLines(lines).cards ==> c.name != "" && IsTrimmed(c.name)
    ensures IsTrimmed(ReadLines(lines).current.name)
    decreases |lines|
  {
    if lines != [] {
      CardsAreNamed(lines[..|lines| - 1]);
    }
  }

  /** The mutable contact of the parser. */
  class Contact {
    var name: string
    var phone: string

    constructor ()
      ensures name == "" && phone == ""
    {
      name := "";
      phone := "";
    }
  }

  /** `handleImportVCF`'s line loop with the emitted contact copied: proved equal to the
      corrected reader. */
  method ReadVcf(text: string) returns (cards: seq<Card>)
    ensures cards == ParseCards(text)
  {
    var lines := SplitLines(text);
    cards := [];
    var current := new Contact();
    var i := 0;
    while i < |lines|
      invariant 0 <= i <= |lines|
      invariant ReadLines(lines[..i]) == Reader(cards, Card(current.name, current.phone))
      invariant fresh(current)
    {
      ReadLinesSnoc(lines, i);
      current, cards := ReadStep(lines[i], current, cards);
      i := i + 1;
    }
    assert lines[..i] == lines;
  }

  lemma ReadLinesSnoc(lines: seq<string>, i: int)
    requires 0 <= i < |lines|
    ensures ReadLines(lines[..i + 1]) == ReadLine(ReadLines(lines[..i]), lines[i])
  {
    assert lines[..i + 1][..i] == lines[..i];
  }

  /** One line of the corrected loop: an END:VCARD line emits a copy of the contact. */
  method ReadStep(line: string, current: Contact, cards: seq<Card>) returns (next: Contact, cards': seq<Card>)
    modifies current
    ensures Reader(cards', Card(next.name, next.phone))
      == ReadLine(Reader(cards, Card(old(current.name), old(current.phone))), line)
    ensures next == current || fresh(next)
  {
    next, cards' := current, cards;
    match Classify(line) {
    case BeginCard =>
      next := new Contact();
    case EndCard =>
      if current.name != "" {
        cards' := cards + [Card(current.name, current.phone)];
      }
    case NameLine(n) =>
      current.name := n;
    case TelLine(p) =>
      if current.phone == "" {
        current.phone := p;
      }
    case OtherLine =>
    }
  }

  // ---------------------------------------------------------------------------------------
  // The parser as written: the heap is a list of contact objects, `cur` the one being filled
  // and `pushed` the objects emitted so far, by position.

  datatype Heap = Heap(objs: seq<Card>, pushed: seq<nat>, cur: nat)

  predicate HeapOk(h: Heap) {
    h.cur < |h.objs| && forall k :: 0 <= k < |h.pushed| ==> h.pushed[k] < |h.objs|
  }

  function AliasStep(h: Heap, line: string): (h': Heap)
    requires HeapOk(h)
    ensures HeapOk(h')
  {
    match Classify(line)
    case BeginCard => h.(objs := h.objs + [Blank], cur := |h.objs|)
    case EndCard => if h.objs[h.cur].name != "" then h.(pushed := h.pushed + [h.cur]) else h
    case NameLine(n) => h.(objs := h.objs[h.cur := h.objs[h.cur].(name := n)])
    case TelLine(p) =>
      if h.objs[h.cur].phone == "" then h.(objs := h.objs[h.cur := h.objs[h.cur].(phone := p)]) else h
    case OtherLine => h
  }

  function AliasLines(lines: seq<string>): (h: Heap)
    ensures HeapOk(h)
  {
    if lines == [] then Heap([Blank], [], 0)
    else AliasStep(AliasLines(lines[..|lines| - 1]), lines[|lines| - 1])
  }

  lemma AliasLinesSnoc(lines: seq<string>, i: int)
    requires 0 <= i < |lines|
    ensures AliasLines(lines[..i + 1]) == AliasStep(AliasLines(lines[..i]), lines[i])
  {
    assert lines[..i + 1][..i] == lines[..i];
  }

  /** The emitted objects as the merge reads them, after the whole file. */
  function Emitted(h: Heap): seq<Card>
    requires HeapOk(h)
  {
    seq(|h.pushed|, k requires 0 <= k < |h.pushed| => h.objs[h.pushed[k]])
  }

  /** The contact objects `objs` and the emitted list `contacts` hold what the heap value `h`
      describes, object by object; distinct positions are distinct objects. */
  predicate Linked(current: Contact, contacts: seq<Contact>, objs: seq<Contact>, h: Heap)
    reads objs
  {
    HeapOk(h) && |objs| == |h.objs| && current == objs[h.cur] && |contacts| == |h.pushed|
    && (forall k :: 0 <= k < |contacts| ==> contacts[k] == objs[h.pushed[k]])
    && (forall k :: 0 <= k < |objs| ==> objs[k].name == h.objs[k].name && objs[k].phone == h.objs[k].phone)
    && (forall a, b :: 0 <= a < b < |objs| ==> objs[a] != objs[b])
  }

  /** One line of `handleImportVCF`'s loop as written: only the current object is written to,
      and a BEGIN:VCARD line makes a new one. */
  method FeedLine(line: string, current: Contact, contacts: seq<Contact>, ghost objs: seq<Contact>, ghost h: Heap)
    returns (next: Contact, out: seq<Contact>, ghost objs': seq<Contact>, ghost h': Heap)
    requires Linked(current, contacts, objs, h)
    modifies current
    ensures Linked(next, out, objs', h') && h' == AliasStep(h, line)
    ensures (objs' == objs && next == current) || (objs' == objs + [next] && fresh(next))
  {
    next, out, objs', h' := current, contacts, objs, h;
    match Classify(line)
    case BeginCard =>
      next := new Contact();
      objs' := objs + [next];
      h' := h.(objs := h.objs + [Blank], cur := |h.objs|);
    case EndCard =>
      if current.name != "" {
        out := contacts + [current];
        h' := h.(pushed := h.pushed + [h.cur]);
      }
    case NameLine(n) =>
      h' := WriteName(n, current, contacts, objs, h);
    case TelLine(p) =>
      if current.phone == "" {
        h' := WritePhone(p, current, contacts, objs, h);
      }
    case OtherLine =>
  }

  /** `current.name = …`: the one object written to is the current one. */
  method WriteName(n: string, current: Contact, contacts: seq<Contact>, ghost objs: seq<Contact>, ghost h: Heap)
    returns (ghost h': Heap)
    requires Linked(current, contacts, objs, h)
    modifies current
    ensures h' == h.(objs := h.objs[h.cur := h.objs[h.cur].(name := n)])
    ensures Linked(current, contacts, objs, h')
  {
    current.name := n;
    h' := h.(objs := h.objs[h.cur := h.objs[h.cur].(name := n)]);
  }

  method WritePhone(p: string, current: Contact, contacts: seq<Contact>, ghost objs: seq<Contact>, ghost h: Heap)
    returns (ghost h': Heap)
    requires Linked(current, contacts, objs, h)
    modifies current
    ensures h' == h.(objs := h.objs[h.cur := h.objs[h.cur].(phone := p)])
    ensures Linked(current, contacts, objs, h')
  {
    current.phone := p;
    h' := h.(objs := h.objs[h.cur := h.objs[h.cur].(phone := p)]);
  }

  /** `handleImportVCF`'s line loop as written, pushing the contact object itself; the merge
      reads the emitted objects after the whole file. */
  method ReadVcfAsWritten(text: string) returns (cards: seq<Card>)
    ensures cards == Emitted(AliasLines(SplitLines(text)))
  {
    var lines := SplitLines(text);
    var contacts: seq<Contact> := [];
    var current := new Contact();
    ghost var objs := [current];
    ghost var h := Heap([Blank], [], 0);
    var i := 0;
    assert lines[..0] == [];
    while i < |lines|
      invariant 0 <= i <= |lines|
      invariant h == AliasLines(lines[..i])
      invariant Linked(current, contacts, objs, h)
      invariant fresh(current)
    {
      AliasLinesSnoc(lines, i);
      current, contacts, objs, h := FeedLine(lines[i], current, contacts, objs, h);
      i := i + 1;
    }
    assert lines[..i] == lines;
    cards := ReadBack(current, contacts, objs, h);
  }

  /** `contacts.map(c => ...)` after the loop: the fields of the emitted objects as they are now. */
  method ReadBack(current: Contact, contacts: seq<Contact>, ghost objs: seq<Contact>, ghost h: Heap)
    returns (cards: seq<Card>)
    requires Linked(current, contacts, objs, h)
    ensures cards == Emitted(h)
  {
    cards := [];
    var k := 0;
    while k < |contacts|
      invariant 0 <= k <= |contacts|
      invariant cards == Emitted(h)[..k]
    {
      assert Card(contacts[k].name, contacts[k].phone) == Emitted(h)[k];
      cards := cards + [Card(contacts[k].name, contacts[k].phone)];
      assert Emitted(h)[..k + 1] == Emitted(h)[..k] + [Emitted(h)[k]];
      k := k + 1;
    }
    assert Emitted(h)[..k] == Emitted(h);
  }

  /** A stray FN: line after a card's END:VCARD renames the card already emitted: as written a
      contact with an empty name is imported, where the corrected parser reads "Asha". */
  lemma LateNameOverwritesCard()
    ensures var lines := ["BEGIN:VCARD", "FN:Asha", "END:VCARD", "FN:"];
      Emitted(AliasLines(lines)) == [Card("", "")] && ReadLines(lines).cards == [Card("Asha", "")]
  {
    SampleLines();
    StrayNameAfterCard("BEGIN:VCARD", "FN:Asha", "END:VCARD", "FN:", "Asha");
  }

  /** A named card followed by an empty FN: line, for any lines that parse that way. */
  lemma StrayNameAfterCard(l0: string, l1: string, l2: string, l3: string, name: string)
    requires name != ""
    requires Classify(l0) == BeginCard && Classify(l1) == NameLine(name)
    requires Classify(l2) == EndCard && Classify(l3) == NameLine("")
    ensures Emitted(AliasLines([l0, l1, l2, l3])) == [Card("", "")]
    ensures ReadLines([l0, l1, l2, l3]).cards == [Card(name, "")]
  {
    FourLines(l0, l1, l2, l3);
    var h0 := AliasLines([]);
    var h1 := AliasStep(h0, l0);
    assert h1 == Heap([Blank, Blank], [], 1);
    var h2 := AliasStep(h1, l1);
    assert h2 == Heap([Blank, Card(name, "")], [], 1);
    var h3 := AliasStep(h2, l2);
    assert h3 == Heap([Blank, Card(name, "")], [1], 1);
    var h4 := AliasStep(h3, l3);
    assert h4 == Heap([Blank, Card("", "")], [1], 1);
    var r1 := ReadLine(ReadLines([]), l0);
    assert r1 == Reader([], Blank);
    var r2 := ReadLine(r1, l1);
    assert r2 == Reader([], Card(name, ""));
    var r3 := ReadLine(r2, l2);
    assert r3 == Reader([Card(name, "")], Card(name, ""));
  }

  /** Four lines, read one at a time. */
  lemma FourLines(l0: string, l1: string, l2: string, l3: string)
    ensures AliasLines([l0, l1, l2, l3])
      == AliasStep(AliasStep(AliasStep(AliasStep(AliasLines([]), l0), l1), l2), l3)
    ensures ReadLines([l0, l1, l2, l3])
      == ReadLine(ReadLine(ReadLine(ReadLine(ReadLines([]), l0), l1), l2), l3)
  {
    Snoc([], l0);
    assert [] + [l0] == [l0];
    Snoc([l0], l1);
    assert [l0] + [l1] == [l0, l1];
    Snoc([l0, l1], l2);
    assert [l0, l1] + [l2] == [l0, l1, l2];
    Snoc([l0, l1, l2], l3);
    assert [l0, l1, l2] + [l3] == [l0, l1, l2, l3];
  }

  /** Both readers take the lines one at a time, from the front. */
  lemma Snoc(lines: seq<string>, line: string)
    ensures AliasLines(lines + [line]) == AliasStep(AliasLines(lines), line)
    ensures ReadLines(lines + [line]) == ReadLine(ReadLines(lines), line)
  {
    assert (lines + [line])[..|lines|] == lines;
  }

  lemma SampleLines()
    ensures Classify("BEGIN:VCARD") == BeginCard
    ensures Classify("FN:Asha") == NameLine("Asha")
    ensures Classify("END:VCARD") == EndCard
    ensures Classify("FN:") == NameLine("")
  {
    SampleBegin();
    SampleEnd();
    SampleName();
    SampleEmptyName();
  }

  lemma SampleBegin()
    ensures Classify("BEGIN:VCARD") == BeginCard
  {
    UpperPrefix("BEGIN:VCARD", "BEGIN:VCARD");
  }

  lemma SampleEnd()
    ensures Classify("END:VCARD") == EndCard
  {
    UpperPrefix("END:VCARD", "END:VCARD");
    assert Upper("END:VCARD")[0] == 'E';
  }

  lemma SampleName()
    ensures Classify("FN:Asha") == NameLine("Asha")
  {
    UpperPrefix("FN:Asha", "FN:");
    assert Upper("FN:Asha")[0] == 'F';
    assert "FN:Asha"[3..] == "Asha";
    TrimOfTrimmed("Asha");
  }

  lemma SampleEmptyName()
    ensures Classify("FN:") == NameLine("")
  {
    UpperPrefix("FN:", "FN:");
    assert Upper("FN:")[0] == 'F';
    assert "FN:"[3..] == "";
  }

  /** `line.toUpperCase().startsWith(p)`, one character at a time. */
  lemma UpperPrefix(s: string, p: string)
    requires |p| <= |s| && forall i :: 0 <= i < |p| ==> UpperChar(s[i]) == p[i]
    ensures HasPrefix(Upper(s), p)
  {
    assert Upper(s)[..|p|] == p;
  }

  // ---------------------------------------------------------------------------------------
  // The merge into the creditors (`onUpdate(prev => ...)`).

  /** The cards whose lower-cased names are not among the creditors before the import;
      duplicates within the file are all kept. */
  function IsNewName(existing: seq<Creditor>): Card -> bool {
    (c: Card) => FindByName(existing, c.name) < 0
  }

  /** Every contact whose name is new (up to case) survives, in file order (`KeepConcat`) and
      as often as in the file; every other contact is dropped. */
  function NewCards(cards: seq<Card>, existing: seq<Creditor>): (r: seq<Card>)
    ensures forall c :: c in r <==> c in cards && FindByName(existing, c.name) < 0
    ensures |r| <= |cards|
  {
    Keep(cards, IsNewName(existing))
  }

  lemma NewCardsCount(cards: seq<Card>, existing: seq<Creditor>)
    ensures forall c :: multiset(NewCards(cards, existing))[c]
                        == if FindByName(existing, c.name) < 0 then multiset(cards)[c] else 0
  {
    KeepCount(cards, IsNewName(existing));
  }

  /** The new creditors, with empty ledgers; `ids` stands for the clock-and-random ids. */
  function AsCreditors(cards: seq<Card>, ids: seq<int>): seq<Creditor>
    requires |ids| >= |cards|
  {
    seq(|cards|, k requires 0 <= k < |cards| => Creditor(ids[k], cards[k].name, cards[k].phone, []))
  }

  function MergeContacts(prev: AppState, cards: seq<Card>, ids: seq<int>): AppState
    requires |ids| >= |cards|
  {
    var added := NewCards(cards, prev.creditors);
    if added == [] then prev else prev.(creditors := AsCreditors(added, ids) + prev.creditors)
  }

  /** The merge leaves the state alone when every contact already exists; otherwise it puts one
      creditor with an empty ledger in front for each contact whose name is new, in file order
      and with that contact's name and phone, and keeps the old creditors after them in order. */
  lemma MergeEffect(prev: AppState, cards: seq<Card>, ids: seq<int>)
    requires |ids| >= |cards|
    ensures var next := MergeContacts(prev, cards, ids);
      var n := |next.creditors| - |prev.creditors|;
      next.entries == prev.entries && next.staff == prev.staff
      && ((forall c :: c in cards ==> FindByName(prev.creditors, c.name) >= 0) ==> next == prev)
      && 0 <= n <= |cards| && next.creditors[n..] == prev.creditors
      && n == |NewCards(cards, prev.creditors)|
      && (forall k :: 0 <= k < n ==>
            next.creditors[k] == Creditor(ids[k], NewCards(cards, prev.creditors)[k].name,
                                          NewCards(cards, prev.creditors)[k].phone, []))
      && (forall k :: 0 <= k < n ==>
            next.creditors[k].transactions == [] && FindByName(prev.creditors, next.creditors[k].name) < 0
            && Card(next.creditors[k].name, next.creditors[k].phone) in cards)
      && (forall c :: c in cards && FindByName(prev.creditors, c.name) < 0 ==>
            exists k :: 0 <= k < n && Card(next.creditors[k].name, next.creditors[k].phone) == c)
  {
    var next := MergeContacts(prev, cards, ids);
    var added := NewCards(cards, prev.creditors);
    MergeShape(prev, cards, ids);
    if added != [] {
      assert added[0] in cards && FindByName(prev.creditors, added[0].name) < 0;
    }
    FrontCreditors(added, ids, prev.creditors, cards);
  }

  /** The creditors made from the new contacts, in front of the old ones, for any list of new
      contacts that holds exactly the contacts of the file whose names are new. */
  lemma FrontCreditors(added: seq<Card>, ids: seq<int>, existing: seq<Creditor>, cards: seq<Card>)
    requires |ids| >= |added|
    requires forall c :: c in added <==> c in cards && FindByName(existing, c.name) < 0
    ensures var r := AsCreditors(added, ids) + existing;
      var n := |added|;
      r[n..] == existing
      && (forall k :: 0 <= k < n ==> r[k] == Creditor(ids[k], added[k].name, added[k].phone, []))
      && (forall k :: 0 <= k < n ==>
            r[k].transactions == [] && FindByName(existing, r[k].name) < 0 && Card(r[k].name, r[k].phone) in cards)
      && (forall c :: c in cards && FindByName(existing, c.name) < 0 ==>
            exists k :: 0 <= k < n && Card(r[k].name, r[k].phone) == c)
  {
    var made := AsCreditors(added, ids);
    var r := made + existing;
    assert r[|added|..] == existing;
    forall k | 0 <= k < |added|
      ensures r[k] == Creditor(ids[k], added[k].name, added[k].phone, [])
      ensures Card(r[k].name, r[k].phone) == added[k] && added[k] in added
    {
      assert r[k] == made[k];
    }
    forall c | c in cards && FindByName(existing, c.name) < 0
      ensures exists k :: 0 <= k < |added| && Card(r[k].name, r[k].phone) == c
    {
      var k :| 0 <= k < |added| && added[k] == c;
      assert Card(r[k].name, r[k].phone) == added[k];
    }
  }

  /** The creditors after the merge: the new ones, then the old ones. */
  lemma MergeShape(prev: AppState, cards: seq<Card>, ids: seq<int>)
    requires |ids| >= |cards|
    ensures var next := MergeContacts(prev, cards, ids);
      next == prev.(creditors := AsCreditors(NewCards(cards, prev.creditors), ids) + prev.creditors)
  {
    if NewCards(cards, prev.creditors) == [] {
      assert AsCreditors([], ids) + prev.creditors == prev.creditors;
    }
  }

  /** With the corrected parser every imported creditor has a non-empty name. */
  lemma ImportedCreditorsAreNamed(prev: AppState, text: string, ids: seq<int>)
    requires |ids| >= |ParseCards(text)|
    ensures var next := MergeContacts(prev, ParseCards(text), ids);
      forall k :: 0 <= k < |next.creditors| - |prev.creditors| ==> next.creditors[k].name != ""
  {
    CardsAreNamed(SplitLines(text));
    MergeEffect(prev, ParseCards(text), ids);
  }

  /** Names are checked only against the creditors before the import, so a file that holds the
      same name twice imports it twice. */
  lemma MergeKeepsFileDuplicates()
    ensures var prev := AppState([], [], 0, 0, []);
      var next := MergeContacts(prev, [Card("Asha", "1"), Card("asha", "2")], [7, 8]);
      |next.creditors| == 2 && !DistinctNames(next.creditors)
  {
    var cards := [Card("Asha", "1"), Card("asha", "2")];
    assert Lower("Asha") == "asha" && Lower("asha") == "asha";
    assert NewCards(cards, []) == cards by {
      var p := IsNewName([]);
      assert cards[..1] == [cards[0]] && cards[..1][..0] == [];
      KeepStep(cards[..1], p);
      KeepStep(cards, p);
    }
    var next := MergeContacts(AppState([], [], 0, 0, []), cards, [7, 8]);
    assert next.creditors[0].name == "Asha" && next.creditors[1].name == "asha";
  }
}
