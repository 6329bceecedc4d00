/** The reports with one row per related item (src/bptl/work_units/zgw/zac/utils.py:
    create_zaken_report_xlsx and add_informatieobjecten_sheet_xlsx).

    Dates are day numbers that have been parsed already; `lower` and `strip` are the library's
    string functions. */
module Reports {
  import opened Wrappers
  import opened Sequences
  import opened Sorting
  import opened Worksheets

  // ===== Zaken =====

  datatype Item = Entry(name: string, objecttype: string) | Scalar(text: string)

  /** The field `objecten`: a list, a bare string (legacy), or anything else. */
  datatype Objects = ItemList(items: seq<Item>) | Bare(text: string) | Unusable

  datatype Field = Absent | Null | Value(number: int)

  datatype Zaak = Zaak(identificatie: string, omschrijving: string, zaaktype: string, registratiedatum: Option<int>,
                       initiator: string, objecten: Objects, aantalCamel: Field, aantal: Field)

  const ZAKEN_HEADERS := [
    Text("Identificatie"), Text("Omschrijving"), Text("Zaaktype"), Text("Registratiedatum"),
    Text("Initiator"), Text("Object"), Text("Objecttype"), Text("Aantal Informatieobjecten")]

  /** _normalize_keys: the camelCase count is used when the other key is missing. */
  function Normalized(z: Zaak): Zaak
  {
    if z.aantalCamel != Absent && z.aantal == Absent then z.(aantal := z.aantalCamel) else z
  }

  /** _explode_objects. */
  function Exploded(objects: Objects): seq<(string, string)>
  {
    match objects
    case ItemList(items) => seq(|items|, i requires 0 <= i < |items| =>
                                  match items[i] case Entry(o, t) => (o, t) case Scalar(x) => (x, ""))
    case Bare(text) => [(text, "")]
    case Unusable => []
  }

  function DateCell(day: Option<int>): Cell
  {
    if day.Some? then Day(day.value) else Blank
  }

  /** The rows of one zaak, as they should end up in the sheet. */
  function ZaakLine(z: Zaak, shown: (string, string)): Line
  {
    [Text(z.identificatie), Text(z.omschrijving), Text(z.zaaktype), DateCell(z.registratiedatum), Text(z.initiator),
     Text(shown.0), Text(shown.1), Number(if z.aantal.Value? then z.aantal.number else 0)]
  }

  function ObjectsShown(z: Zaak): (objects: seq<(string, string)>)
  {
    var objects := Exploded(z.objecten);
    if objects == [] then [("N.v.t.", "N.v.t.")] else objects
  }

  function ZaakLines(z: Zaak): seq<Line>
  {
    var objects := ObjectsShown(z);
    seq(|objects|, i requires 0 <= i < |objects| => ZaakLine(z, objects[i]))
  }

  /** Undated last, otherwise oldest first. */
  predicate DateLe(a: Option<int>, b: Option<int>)
  {
    b.None? || (a.Some? && a.value <= b.value)
  }

  predicate ZaakLe(a: Zaak, b: Zaak)
  {
    DateLe(a.registratiedatum, b.registratiedatum)
  }

  function NormalizedAll(zaken: seq<Zaak>): seq<Zaak>
  {
    seq(|zaken|, i requires 0 <= i < |zaken| => Normalized(zaken[i]))
  }

  function LinesOf(zaken: seq<Zaak>): seq<Line>
  {
    FlatMap(zaken, ZaakLines)
  }

  function ZakenSorted(zaken: seq<Zaak>): seq<Zaak>
  {
    StableSort(NormalizedAll(zaken), ZaakLe)
  }

  /** Append a row with an empty date and put the date, if any, into that same row. */
  method AppendZaakLine(ws: Worksheet, row: Zaak, shown: (string, string))
    modifies ws
    ensures ws.lines == old(ws.lines) + [ZaakLine(row, shown)]
  {
    var count := if row.aantal.Value? then row.aantal.number else 0;
    var line := [Text(row.identificatie), Text(row.omschrijving), Text(row.zaaktype), Blank, Text(row.initiator),
                 Text(shown.0), Text(shown.1), Number(count)];
    ws.Append(line);
    assert line[3 := DateCell(row.registratiedatum)] == ZaakLine(row, shown);
    if row.registratiedatum.Some? {
      ws.SetInLastLine(3, Day(row.registratiedatum.value));
    } else {
      assert line[3 := Blank] == line;
    }
  }

  method AppendZaak(ws: Worksheet, row: Zaak)
    modifies ws
    ensures ws.lines == old(ws.lines) + ZaakLines(row)
  {
    var objects := Exploded(row.objecten);
    if objects == [] {
      objects := [("N.v.t.", "N.v.t.")];
    }
    ghost var lines := ZaakLines(row);
    var j := 0;
    while j < |objects|
      invariant 0 <= j <= |objects|
      invariant ws.lines == old(ws.lines) + lines[..j]
    {
      AppendZaakLine(ws, row, objects[j]);
      assert lines[..j + 1] == lines[..j] + [ZaakLine(row, objects[j])];
      j := j + 1;
    }
    assert lines[..j] == lines;
  }

  method AppendZaken(ws: Worksheet, sorted: seq<Zaak>)
    modifies ws
    ensures ws.lines == old(ws.lines) + LinesOf(sorted)
  {
    var i := 0;
    while i < |sorted|
      invariant 0 <= i <= |sorted|
      invariant ws.lines == old(ws.lines) + LinesOf(sorted[..i])
    {
      AppendZaak(ws, sorted[i]);
      assert sorted[..i + 1][..i] == sorted[..i];
      i := i + 1;
    }
    assert sorted[..i] == sorted;
  }

  /** The sheet is the header and the concatenation of explode(z) over the stably sorted zaken,
      although the date is only put into each row after the row has been appended. */
  method CreateZakenReport(zaken: seq<Zaak>) returns (ws: Worksheet)
    ensures ws.lines == [ZAKEN_HEADERS] + LinesOf(ZakenSorted(zaken))
  {
    ws := new Worksheet();
    ws.Append(ZAKEN_HEADERS);
    AppendZaken(ws, ZakenSorted(zaken));
  }

  lemma ZaakLeIsPreorder()
    ensures TotalPreorder(ZaakLe)
  {
  }

  /** Every zaak gets max(1, number of related objects) rows, all with its own date. */
  lemma RowsOfAZaak(z: Zaak)
    ensures |ZaakLines(z)| == (if |Exploded(z.objecten)| > 1 then |Exploded(z.objecten)| else 1)
    ensures forall i | 0 <= i < |ZaakLines(z)| ::
              |ZaakLines(z)[i]| == 8 && ZaakLines(z)[i][3] == DateCell(z.registratiedatum)
  {
  }

  /** The lines of some zaken and then others are those of the first followed by those of the others, and one
      zaak has its own: the report is their concatenation. */
  lemma LinesConcatenate(p: seq<Zaak>, q: seq<Zaak>)
    ensures LinesOf(p + q) == LinesOf(p) + LinesOf(q)
    ensures LinesOf([]) == [] && (|p| == 1 ==> LinesOf(p) == ZaakLines(p[0]))
  {
    FlatMapConcatenates(p, q, ZaakLines);
    if |p| == 1 {
      assert p == [p[0]];
      FlatMapOfOne(p[0], ZaakLines);
    }
  }

  /** So row j of zaak i comes right behind all rows of the earlier zaken. */
  lemma LineAt(zaken: seq<Zaak>, i: nat, j: nat)
    requires i < |zaken| && j < |ZaakLines(zaken[i])|
    ensures |LinesOf(zaken[..i])| + j < |LinesOf(zaken)|
    ensures LinesOf(zaken)[|LinesOf(zaken[..i])| + j] == ZaakLines(zaken[i])[j]
  {
    FlatMapAt(zaken, ZaakLines, i, j);
  }

  /** The object and objecttype that row i of a zaak shows: those of its i-th related object, a bare string as
      an object without a type, or "N.v.t." when there is none. */
  lemma ObjectsOfAZaak(z: Zaak, i: nat)
    requires i < |ZaakLines(z)|
    ensures ZAKEN_HEADERS[5] == Text("Object") && ZAKEN_HEADERS[6] == Text("Objecttype")
    ensures |ZaakLines(z)[i]| == |ZAKEN_HEADERS|
    ensures var shown, kind := ZaakLines(z)[i][5], ZaakLines(z)[i][6];
            match z.objecten
            case ItemList(items) =>
              if items == [] then |ZaakLines(z)| == 1 && shown == kind == Text("N.v.t.")
              else
                && |ZaakLines(z)| == |items|
                && (items[i].Entry? ==> shown == Text(items[i].name) && kind == Text(items[i].objecttype))
                && (items[i].Scalar? ==> shown == Text(items[i].text) && kind == Text(""))
            case Bare(text) => |ZaakLines(z)| == 1 && shown == Text(text) && kind == Text("")
            case Unusable => |ZaakLines(z)| == 1 && shown == kind == Text("N.v.t.")
  {
  }

  /** The other cells of a row, under their headers.  The count is read from either spelling of its key; the
      camelCase one only counts when the other is missing, and anything but a number shows as 0. */
  lemma FieldsOfAZaak(z: Zaak, i: nat)
    requires i < |ZaakLines(Normalized(z))|
    ensures var line := ZaakLines(Normalized(z))[i];
            && |line| == |ZAKEN_HEADERS| == 8
            && ZAKEN_HEADERS[0] == Text("Identificatie") && line[0] == Text(z.identificatie)
            && ZAKEN_HEADERS[1] == Text("Omschrijving") && line[1] == Text(z.omschrijving)
            && ZAKEN_HEADERS[2] == Text("Zaaktype") && line[2] == Text(z.zaaktype)
            && ZAKEN_HEADERS[3] == Text("Registratiedatum")
            && line[3] == (if z.registratiedatum.Some? then Day(z.registratiedatum.value) else Blank)
            && ZAKEN_HEADERS[4] == Text("Initiator") && line[4] == Text(z.initiator)
            && ZAKEN_HEADERS[7] == Text("Aantal Informatieobjecten")
            && (z.aantal.Value? ==> line[7] == Number(z.aantal.number))
            && (z.aantal.Absent? && z.aantalCamel.Value? ==> line[7] == Number(z.aantalCamel.number))
            && (z.aantal.Null? || (z.aantal.Absent? && !z.aantalCamel.Value?) ==> line[7] == Number(0))
  {
  }

  predicate CellLe(a: Cell, b: Cell)
  {
    b == Blank || (a.Day? && b.Day? && a.day <= b.day)
  }

  lemma CellLeThrough(lines: seq<Line>, a: Option<int>, b: Option<int>)
    requires forall i | 0 <= i < |lines| :: |lines[i]| == 8 && CellLe(lines[i][3], DateCell(a))
    requires DateLe(a, b)
    ensures forall i | 0 <= i < |lines| :: CellLe(lines[i][3], DateCell(b))
  {
  }

  lemma {:induction false} LinesFollowDates(zaken: seq<Zaak>)
    requires Sorted(zaken, ZaakLe)
    ensures forall i | 0 <= i < |LinesOf(zaken)| :: |LinesOf(zaken)[i]| == 8
    ensures forall i, j | 0 <= i < j < |LinesOf(zaken)| :: CellLe(LinesOf(zaken)[i][3], LinesOf(zaken)[j][3])
    ensures zaken != [] ==> forall i | 0 <= i < |LinesOf(zaken)| ::
              CellLe(LinesOf(zaken)[i][3], DateCell(zaken[|zaken| - 1].registratiedatum))
  {
    if zaken == [] {
    } else {
      var rest, last := zaken[..|zaken| - 1], zaken[|zaken| - 1];
      LinesFollowDates(rest);
      RowsOfAZaak(last);
      var before, after := LinesOf(rest), ZaakLines(last);
      assert LinesOf(zaken) == before + after;
      if rest != [] {
        assert ZaakLe(rest[|rest| - 1], last);
        CellLeThrough(before, rest[|rest| - 1].registratiedatum, last.registratiedatum);
      }
    }
  }

  /** In the finished report the dates ascend, and below an undated row there are only undated ones. */
  lemma ZakenReportIsChronological(zaken: seq<Zaak>)
    ensures var lines := LinesOf(ZakenSorted(zaken));
            forall i, j | 0 <= i < j < |lines| :: |lines[i]| == |lines[j]| == 8 && CellLe(lines[i][3], lines[j][3])
  {
    ZaakLeIsPreorder();
    SortsElements(NormalizedAll(zaken), ZaakLe);
    LinesFollowDates(ZakenSorted(zaken));
  }

  /** No zaak is lost or doubled, and zaken of the same day keep the order they came in. */
  lemma ZakenReportIsStable(zaken: seq<Zaak>, z: Zaak)
    ensures multiset(ZakenSorted(zaken)) == multiset(NormalizedAll(zaken))
    ensures Peers(ZakenSorted(zaken), z, ZaakLe) == Peers(NormalizedAll(zaken), z, ZaakLe)
  {
    ZaakLeIsPreorder();
    SortsElements(NormalizedAll(zaken), ZaakLe);
    KeepsOrderOfPeers(NormalizedAll(zaken), z, ZaakLe);
  }

  // ===== Informatieobjecten =====

  /** `creatiedatum`: parsed to a day, a string that cannot be parsed, or anything else. */
  datatype Created = Parsed(day: int) | Raw(text: string) | Other

  datatype Document = Document(auteur: string, bestandsnaam: string, beschrijving: string, soort: string,
                               created: Created, related: seq<Option<string>>)

  const DOCUMENT_HEADERS := [
    Text("Auteur"), Text("Bestandsnaam"), Text("Beschrijving"), Text("Informatieobjecttype"),
    Text("Creatiedatum"), Text("Gerelateerde Zaken"), Text("Zaaktype")]

  datatype SortKey = SortKey(undated: bool, day: int, soort: string, bestandsnaam: string, auteur: string,
                             zaaktype: string)

  /** A tuple of the list exploded_rows. */
  datatype Pending = Pending(key: SortKey, line: Line, created: Created)

  function FirstColon(s: string): nat
  {
    if s == [] || s[0] == ':' then 0 else 1 + FirstColon(s[1..])
  }

  lemma {:induction false} FirstColonIsFirst(s: string)
    ensures FirstColon(s) <= |s| && ':' !in s[..FirstColon(s)]
    ensures FirstColon(s) < |s| ==> s[FirstColon(s)] == ':'
    ensures FirstColon(s) == |s| <==> ':' !in s
  {
    if s == [] || s[0] == ':' {
    } else {
      FirstColonIsFirst(s[1..]);
      assert s[..FirstColon(s)] == [s[0]] + s[1..][..FirstColon(s[1..])];
      assert s == [s[0]] + s[1..];
    }
  }

  /** _extract_zaaktype: what follows the first colon. */
  function ZaaktypeOf(s: string, strip: string -> string): string
  {
    FirstColonIsFirst(s);
    if s == [] then "" else if ':' in s then strip(s[FirstColon(s) + 1..]) else strip(s)
  }

  /** The largest day there is, used for rows without a date. */
  const MAX_DAY := 3652059

  function KeyOf(d: Document, zaaktype: string, lower: string -> string): SortKey
  {
    SortKey(!d.created.Parsed?, if d.created.Parsed? then d.created.day else MAX_DAY,
            lower(d.soort), lower(d.bestandsnaam), lower(d.auteur), zaaktype)
  }

  function PendingOf(d: Document, related: string, zaaktype: string, key: string, lower: string -> string): Pending
  {
    Pending(KeyOf(d, key, lower),
            [Text(d.auteur), Text(d.bestandsnaam), Text(d.beschrijving), Text(d.soort), Blank, Text(related),
                Text(zaaktype)],
            d.created)
  }

  function Shown(entry: Option<string>): string
  {
    if entry.Some? then entry.value else ""
  }

  function RelatedLine(d: Document, full: string, lower: string -> string, strip: string -> string): (p: Pending)
    ensures |p.line| == 7
  {
    PendingOf(d, full, ZaaktypeOf(full, strip), lower(ZaaktypeOf(full, strip)), lower)
  }

  function PendingLines(d: Document, lower: string -> string, strip: string -> string): (lines: seq<Pending>)
    ensures forall i | 0 <= i < |lines| :: |lines[i].line| == 7
  {
    if d.related == [] then [PendingOf(d, "", "", "", lower)]
    else seq(|d.related|, i requires 0 <= i < |d.related| => RelatedLine(d, Shown(d.related[i]), lower, strip))
  }

  function PendingBy(lower: string -> string, strip: string -> string): Document -> seq<Pending>
  {
    (d: Document) => PendingLines(d, lower, strip)
  }

  function AllPending(documents: seq<Document>, lower: string -> string, strip: string -> string): seq<Pending>
  {
    FlatMap(documents, PendingBy(lower, strip))
  }

  /** The row as it ends up: with its date, or the text that could not be parsed. */
  function Rendered(p: Pending): Line
    requires |p.line| == 7
  {
    match p.created
    case Parsed(day) => p.line[4 := Day(day)]
    case Raw(text) => if text == "" then p.line else p.line[4 := Text(text)]
    case Other => p.line
  }

  predicate KeyLe(a: SortKey, b: SortKey)
  {
    if a.undated != b.undated then b.undated
    else if a.day != b.day then a.day < b.day
    else if a.soort != b.soort then StringLe(a.soort, b.soort)
    else if a.bestandsnaam != b.bestandsnaam then StringLe(a.bestandsnaam, b.bestandsnaam)
    else if a.auteur != b.auteur then StringLe(a.auteur, b.auteur)
    else StringLe(a.zaaktype, b.zaaktype)
  }

  predicate PendingLe(a: Pending, b: Pending)
  {
    KeyLe(a.key, b.key)
  }

  function RenderedAll(pending: seq<Pending>): seq<Line>
    requires forall p | p in pending :: |p.line| == 7
  {
    seq(|pending|, i requires 0 <= i < |pending| => Rendered(pending[i]))
  }

  lemma KeyLeTotal(a: SortKey, b: SortKey)
    ensures KeyLe(a, b) || KeyLe(b, a)
  {
    StringLeTotal(a.soort, b.soort);
    StringLeTotal(a.bestandsnaam, b.bestandsnaam);
    StringLeTotal(a.auteur, b.auteur);
    StringLeTotal(a.zaaktype, b.zaaktype);
  }

  /** Strings that differ are ordered one way only. */
  lemma StringsThrough(a: string, b: string, c: string)
    ensures StringLe(a, b) && StringLe(b, c) ==> StringLe(a, c)
    ensures StringLe(a, b) && StringLe(b, c) && a == c ==> a == b
  {
    if StringLe(a, b) && StringLe(b, c) {
      StringLeTransitive(a, b, c);
      StringLeTotal(a, b);
    }
  }

  lemma KeyLeTransitive(a: SortKey, b: SortKey, c: SortKey)
    requires KeyLe(a, b) && KeyLe(b, c)
    ensures KeyLe(a, c)
  {
    StringsThrough(a.soort, b.soort, c.soort);
    StringsThrough(a.bestandsnaam, b.bestandsnaam, c.bestandsnaam);
    StringsThrough(a.auteur, b.auteur, c.auteur);
    StringsThrough(a.zaaktype, b.zaaktype, c.zaaktype);
  }

  lemma PendingLeIsPreorder()
    ensures TotalPreorder(PendingLe)
  {
    forall a, b
      ensures PendingLe(a, b) || PendingLe(b, a)
    {
      KeyLeTotal(a.key, b.key);
    }
    forall a, b, c | PendingLe(a, b) && PendingLe(b, c)
      ensures PendingLe(a, c)
    {
      KeyLeTransitive(a.key, b.key, c.key);
    }
  }

  lemma {:induction false} PendingLinesAreWide(documents: seq<Document>, lower: string -> string,
                                               strip: string -> string)
    ensures forall p | p in AllPending(documents, lower, strip) :: |p.line| == 7
  {
    if documents == [] {
    } else {
      PendingLinesAreWide(documents[..|documents| - 1], lower, strip);
    }
  }

  function DocumentsSorted(documents: seq<Document>, lower: string -> string,
                           strip: string -> string): (pending: seq<Pending>)
    ensures forall p | p in pending :: |p.line| == 7
  {
    PendingLinesAreWide(documents, lower, strip);
    PendingLeIsPreorder();
    SortsElements(AllPending(documents, lower, strip), PendingLe);
    assert forall p | p in StableSort(AllPending(documents, lower, strip), PendingLe) ::
        p in multiset(AllPending(documents, lower, strip));
    StableSort(AllPending(documents, lower, strip), PendingLe)
  }

  /** The first half of the builder: one pending row per related zaak. */
  method Explode(documents: seq<Document>, lower: string -> string, strip: string -> string)
    returns (exploded: seq<Pending>)
    ensures exploded == AllPending(documents, lower, strip)
  {
    exploded := [];
    var i := 0;
    while i < |documents|
      invariant 0 <= i <= |documents|
      invariant exploded == AllPending(documents[..i], lower, strip)
    {
      var d := documents[i];
      assert documents[..i + 1][..i] == documents[..i];
      if d.related == [] {
        exploded := exploded + [PendingOf(d, "", "", "", lower)];
      } else {
        ghost var before := exploded;
        var j := 0;
        while j < |d.related|
          invariant 0 <= j <= |d.related|
          invariant exploded == before + PendingLines(d, lower, strip)[..j]
        {
          var full := Shown(d.related[j]);
          var zaaktype := ZaaktypeOf(full, strip);
          exploded := exploded + [PendingOf(d, full, zaaktype, lower(zaaktype), lower)];
          assert PendingLines(d, lower, strip)[..j + 1]
              == PendingLines(d, lower, strip)[..j] + [PendingLines(d, lower, strip)[j]];
          j := j + 1;
        }
        assert PendingLines(d, lower, strip)[..j] == PendingLines(d, lower, strip);
      }
      i := i + 1;
    }
    assert documents[..i] == documents;
  }

  /** Append a row and put its date, or the text that could not be parsed, into that same row. */
  method AppendPending(ws: Worksheet, p: Pending)
    requires |p.line| == 7
    modifies ws
    ensures ws.lines == old(ws.lines) + [Rendered(p)]
  {
    ws.Append(p.line);
    if p.created.Parsed? {
      ws.SetInLastLine(4, Day(p.created.day));
    } else if p.created.Raw? && p.created.text != "" {
      ws.SetInLastLine(4, Text(p.created.text));
    }
  }

  method AppendAllPending(ws: Worksheet, sorted: seq<Pending>)
    requires forall p | p in sorted :: |p.line| == 7
    modifies ws
    ensures ws.lines == old(ws.lines) + RenderedAll(sorted)
  {
    ghost var lines := RenderedAll(sorted);
    var i := 0;
    while i < |sorted|
      invariant 0 <= i <= |sorted|
      invariant ws.lines == old(ws.lines) + lines[..i]
    {
      AppendPending(ws, sorted[i]);
      assert lines[..i + 1] == lines[..i] + [lines[i]];
      i := i + 1;
    }
    assert lines[..i] == lines;
  }

  /** Explode first, sort the exploded rows by the full key, then write them: the sheet is exactly the
      rendering of the stably sorted rows, each date in the row it belongs to. */
  method AddInformatieobjectenSheet(documents: seq<Document>, lower: string -> string, strip: string -> string)
    returns (ws: Worksheet)
    ensures ws.lines == [DOCUMENT_HEADERS] + RenderedAll(DocumentsSorted(documents, lower, strip))
  {
    ws := new Worksheet();
    ws.Append(DOCUMENT_HEADERS);
    var exploded := Explode(documents, lower, strip);
    assert StableSort(exploded, PendingLe) == DocumentsSorted(documents, lower, strip);
    AppendAllPending(ws, StableSort(exploded, PendingLe));
  }

  /** The written rows carry exactly the exploded rows, ordered by their full six-part key, and rows
      with equal keys keep the order of the source. */
  lemma DocumentReportIsSorted(documents: seq<Document>, lower: string -> string, strip: string -> string, k: Pending)
    ensures var sorted := DocumentsSorted(documents, lower, strip);
            && (forall i, j | 0 <= i < j < |sorted| :: KeyLe(sorted[i].key, sorted[j].key))
            && multiset(sorted) == multiset(AllPending(documents, lower, strip))
            && Peers(sorted, k, PendingLe) == Peers(AllPending(documents, lower, strip), k, PendingLe)
  {
    var pending := AllPending(documents, lower, strip);
    PendingLeIsPreorder();
    SortsElements(pending, PendingLe);
    KeepsOrderOfPeers(pending, k, PendingLe);
    var sorted := DocumentsSorted(documents, lower, strip);
    forall i, j | 0 <= i < j < |sorted|
      ensures KeyLe(sorted[i].key, sorted[j].key)
    {
      assert PendingLe(sorted[i], sorted[j]);
    }
  }

  /** Undated rows come last, whatever day a dated row carries. */
  lemma UndatedLast(documents: seq<Document>, lower: string -> string, strip: string -> string, i: nat, j: nat)
    requires i < j < |DocumentsSorted(documents, lower, strip)|
    requires DocumentsSorted(documents, lower, strip)[i].key.undated
    ensures DocumentsSorted(documents, lower, strip)[j].key.undated
  {
    DocumentReportIsSorted(documents, lower, strip, DocumentsSorted(documents, lower, strip)[i]);
  }

  function RowsNeeded(documents: seq<Document>): nat
  {
    if documents == [] then 0
    else RowsNeeded(documents[..|documents| - 1]) +
         (if |documents[|documents| - 1].related| > 1 then |documents[|documents| - 1].related| else 1)
  }

  lemma {:induction false} AllPendingCount(documents: seq<Document>, lower: string -> string, strip: string -> string)
    ensures |AllPending(documents, lower, strip)| == RowsNeeded(documents)
  {
    if documents == [] {
    } else {
      AllPendingCount(documents[..|documents| - 1], lower, strip);
    }
  }

  /** max(1, number of related zaken) rows for every document, in all. */
  lemma {:induction false} DocumentRowCount(documents: seq<Document>, lower: string -> string, strip: string -> string)
    ensures |RenderedAll(DocumentsSorted(documents, lower, strip))| == RowsNeeded(documents)
  {
    AllPendingCount(documents, lower, strip);
  }

  /** The pending rows of some documents and then others are those of the first followed by those of the
      others, and one document has its own. */
  lemma PendingConcatenate(p: seq<Document>, q: seq<Document>, lower: string -> string, strip: string -> string)
    ensures AllPending(p + q, lower, strip) == AllPending(p, lower, strip) + AllPending(q, lower, strip)
    ensures AllPending([], lower, strip) == []
    ensures |p| == 1 ==> AllPending(p, lower, strip) == PendingLines(p[0], lower, strip)
  {
    FlatMapConcatenates(p, q, PendingBy(lower, strip));
    if |p| == 1 {
      assert p == [p[0]];
      FlatMapOfOne(p[0], PendingBy(lower, strip));
    }
  }

  /** The cells of row j of a document, under their headers. */
  lemma FieldsOfADocument(d: Document, lower: string -> string, strip: string -> string, j: nat)
    requires j < |PendingLines(d, lower, strip)|
    ensures var line := Rendered(PendingLines(d, lower, strip)[j]);
            && |line| == |DOCUMENT_HEADERS| == 7
            && DOCUMENT_HEADERS[0] == Text("Auteur") && line[0] == Text(d.auteur)
            && DOCUMENT_HEADERS[1] == Text("Bestandsnaam") && line[1] == Text(d.bestandsnaam)
            && DOCUMENT_HEADERS[2] == Text("Beschrijving") && line[2] == Text(d.beschrijving)
            && DOCUMENT_HEADERS[3] == Text("Informatieobjecttype") && line[3] == Text(d.soort)
            && DOCUMENT_HEADERS[4] == Text("Creatiedatum")
            && (d.created.Parsed? ==> line[4] == Day(d.created.day))
            && (d.created.Raw? && d.created.text != "" ==> line[4] == Text(d.created.text))
            && (d.created.Other? || d.created == Raw("") ==> line[4] == Blank)
            && DOCUMENT_HEADERS[5] == Text("Gerelateerde Zaken")
            && line[5] == Text(if j < |d.related| && d.related[j].Some? then d.related[j].value else "")
            && DOCUMENT_HEADERS[6] == Text("Zaaktype")
  {
  }

  lemma {:induction false} FirstColonAt(before: string, behind: string)
    requires ':' !in before
    ensures FirstColon(before + ":" + behind) == |before|
  {
    if before == "" {
    } else {
      assert (before + ":" + behind)[1..] == before[1..] + ":" + behind;
      FirstColonAt(before[1..], behind);
    }
  }

  /** The zaaktype of a related zaak is what follows the first colon, or everything when there is none. */
  lemma ZaaktypeFollowsColon(before: string, behind: string, strip: string -> string)
    requires ':' !in before
    ensures ZaaktypeOf(before + ":" + behind, strip) == strip(behind)
    ensures ZaaktypeOf(before, strip) == if before == "" then "" else strip(before)
  {
    var s := before + ":" + behind;
    FirstColonAt(before, behind);
    FirstColonIsFirst(before);
    assert s[|before|] == ':';
    assert s[|before| + 1..] == behind;
  }

  lemma ZaaktypeOfARow(d: Document, lower: string -> string, strip: string -> string, j: nat)
    requires j < |PendingLines(d, lower, strip)|
    ensures Rendered(PendingLines(d, lower, strip)[j])[6] ==
              Text(if j < |d.related| && d.related[j].Some? then ZaaktypeOf(d.related[j].value, strip) else "")
  {
  }

  // ----- the order of the finished sheet -----

  function TextOf(cell: Cell): string
  {
    if cell.Text? then cell.text else ""
  }

  /** Lexicographic order of lists of texts of one length. */
  predicate TextsLe(a: seq<string>, b: seq<string>)
    requires |a| == |b|
  {
    a == [] || (if a[0] != b[0] then StringLe(a[0], b[0]) else TextsLe(a[1..], b[1..]))
  }

  /** Informatieobjecttype, bestandsnaam, auteur and zaaktype as they stand in a row, without regard to case. */
  function Texts(line: Line, lower: string -> string): (texts: seq<string>)
    requires |line| == 7
    ensures |texts| == 4
  {
    [lower(TextOf(line[3])), lower(TextOf(line[1])), lower(TextOf(line[0])), lower(TextOf(line[6]))]
  }

  /** The older date first, rows without a date last, and then by the texts. */
  predicate RowLe(a: Line, b: Line, lower: string -> string)
    requires |a| == 7 && |b| == 7
  {
    if a[4].Day? && b[4].Day? && a[4].day != b[4].day then a[4].day < b[4].day
    else if a[4].Day? != b[4].Day? then a[4].Day?
    else TextsLe(Texts(a, lower), Texts(b, lower))
  }

  /** The sort key of a pending row says what its cells will say. */
  predicate WellKeyed(p: Pending, lower: string -> string)
  {
    && |p.line| == 7 && p.line[4] == Blank
    && p.key.undated == !p.created.Parsed?
    && p.key.day == (if p.created.Parsed? then p.created.day else MAX_DAY)
    && [p.key.soort, p.key.bestandsnaam, p.key.auteur, p.key.zaaktype] == Texts(p.line, lower)
  }

  lemma LinesAreWellKeyed(d: Document, lower: string -> string, strip: string -> string)
    requires lower("") == ""
    ensures forall p | p in PendingLines(d, lower, strip) :: WellKeyed(p, lower)
  {
  }

  lemma {:induction false} AllAreWellKeyed(documents: seq<Document>, lower: string -> string, strip: string -> string)
    requires lower("") == ""
    ensures forall p | p in AllPending(documents, lower, strip) :: WellKeyed(p, lower)
  {
    if documents == [] {
    } else {
      AllAreWellKeyed(documents[..|documents| - 1], lower, strip);
      LinesAreWellKeyed(documents[|documents| - 1], lower, strip);
    }
  }

  lemma TextsLeFirst(x: string, s: seq<string>, y: string, t: seq<string>)
    requires |s| == |t|
    ensures TextsLe([x] + s, [y] + t) <==> if x != y then StringLe(x, y) else TextsLe(s, t)
  {
    assert ([x] + s)[1..] == s && ([y] + t)[1..] == t;
  }

  /** Four texts compare as the last four parts of a key do. */
  lemma KeyOrdersTexts(a: SortKey, b: SortKey)
    ensures var s := [a.soort, a.bestandsnaam, a.auteur, a.zaaktype];
            var t := [b.soort, b.bestandsnaam, b.auteur, b.zaaktype];
            TextsLe(s, t) <==>
              if a.soort != b.soort then StringLe(a.soort, b.soort)
              else if a.bestandsnaam != b.bestandsnaam then StringLe(a.bestandsnaam, b.bestandsnaam)
              else if a.auteur != b.auteur then StringLe(a.auteur, b.auteur)
              else StringLe(a.zaaktype, b.zaaktype)
  {
    var s, t := [a.soort, a.bestandsnaam, a.auteur, a.zaaktype], [b.soort, b.bestandsnaam, b.auteur, b.zaaktype];
    TextsLeFirst(a.zaaktype, [], b.zaaktype, []);
    TextsLeFirst(a.auteur, [a.zaaktype], b.auteur, [b.zaaktype]);
    TextsLeFirst(a.bestandsnaam, [a.auteur, a.zaaktype], b.bestandsnaam, [b.auteur, b.zaaktype]);
    TextsLeFirst(a.soort, [a.bestandsnaam, a.auteur, a.zaaktype], b.soort, [b.bestandsnaam, b.auteur, b.zaaktype]);
    StringLeTotal(a.zaaktype, b.zaaktype);
    assert [a.zaaktype] == [a.zaaktype] + [] && [b.zaaktype] == [b.zaaktype] + [];
    assert [a.auteur, a.zaaktype] == [a.auteur] + [a.zaaktype] && [b.auteur, b.zaaktype] == [b.auteur] + [b.zaaktype];
    assert s[1..] == [a.bestandsnaam] + [a.auteur, a.zaaktype] && t[1..] == [b.bestandsnaam] + [b.auteur, b.zaaktype];
    assert s == [a.soort] + s[1..] && t == [b.soort] + t[1..];
  }

  lemma KeyOrdersRows(a: Pending, b: Pending, lower: string -> string)
    requires WellKeyed(a, lower) && WellKeyed(b, lower) && KeyLe(a.key, b.key)
    ensures RowLe(Rendered(a), Rendered(b), lower)
  {
    KeyOrdersTexts(a.key, b.key);
    assert Texts(Rendered(a), lower) == Texts(a.line, lower) && Texts(Rendered(b), lower) == Texts(b.line, lower);
  }

  /** In the finished sheet the creation dates ascend, rows without a date come last, and within one day, as
      within the undated rows, the rows ascend by informatieobjecttype, bestandsnaam, auteur and zaaktype. */
  lemma DocumentSheetIsSorted(documents: seq<Document>, lower: string -> string, strip: string -> string, i: nat,
                              j: nat)
    requires lower("") == ""
    requires i < j < |RenderedAll(DocumentsSorted(documents, lower, strip))|
    ensures var rows := RenderedAll(DocumentsSorted(documents, lower, strip));
            |rows[i]| == 7 && |rows[j]| == 7 && RowLe(rows[i], rows[j], lower)
  {
    var sorted := DocumentsSorted(documents, lower, strip);
    DocumentReportIsSorted(documents, lower, strip, sorted[i]);
    AllAreWellKeyed(documents, lower, strip);
    assert sorted[i] in multiset(sorted) && sorted[j] in multiset(sorted);
    KeyOrdersRows(sorted[i], sorted[j], lower);
  }
}
