// prisma/seeds/manifest-workflow.backfill.ts: manifests rebuilt from the signatures in the audit log.
module ManifestBackfill {
  import opened Basics

  datatype Kind = ALL | PASSENGERS | PARCELS

  // ----- Storage keys -----

  const MARK := "/manifests/"

  /** ASCII lower case, which is all the case-insensitive pattern can tell apart. */
  function LowerChar(c: char): char {
    if 'A' <= c <= 'Z' then (c as int + 32) as char else c
  }

  function Lower(s: string): string {
    seq(|s|, i requires 0 <= i < |s| => LowerChar(s[i]))
  }

  /** How many characters come before the first slash; all of them if there is none. */
  function UpToSlash(s: string): (n: nat)
    ensures n <= |s| && (n < |s| ==> s[n] == '/') && forall i :: 0 <= i < n ==> s[i] != '/'
  {
    if s == [] || s[0] == '/' then 0 else 1 + UpToSlash(s[1..])
  }

  /** `[^/]+` and the slash after it: the segment and what follows the slash. */
  function Segment(s: string): Option<(string, string)> {
    var n := UpToSlash(s);
    if 0 < n < |s| then Some((s[..n], s[n + 1..])) else None
  }

  /** The pattern of extractTripId, tried at the start of `s`. */
  function TripHere(s: string): Option<string> {
    if MARK <= s then (match Segment(s[|MARK|..]) case Some((trip, _)) => Some(trip) case None => None) else None
  }

  function Word(kind: Kind): string {
    match kind
    case ALL => "all"
    case PASSENGERS => "passengers"
    case PARCELS => "parcels"
  }

  function KindOf(word: string): Option<Kind> {
    if word == "all" then Some(ALL)
    else if word == "passengers" then Some(PASSENGERS)
    else if word == "parcels" then Some(PARCELS)
    else None
  }

  /** The pattern of extractKindFromKey, tried at the start of `s`. */
  function KindHere(s: string): Option<Kind> {
    if |s| < |MARK| || Lower(s[..|MARK|]) != MARK then None
    else match Segment(s[|MARK|..])
      case None => None
      case Some((_, rest)) =>
        match Segment(rest)
        case None => None
        case Some((word, _)) => KindOf(Lower(word))
  }

  /** The leftmost match. */
  function ExtractTripId(key: string): Option<string> {
    if TripHere(key).Some? || key == [] then TripHere(key) else ExtractTripId(key[1..])
  }

  function ExtractKind(key: string): Option<Kind> {
    if KindHere(key).Some? || key == [] then KindHere(key) else ExtractKind(key[1..])
  }

  // ----- What the two patterns match -----

  ghost predicate NoSlash(s: string) {
    forall i :: 0 <= i < |s| ==> s[i] != '/'
  }

  lemma {:induction false} SegmentOf(a: string, b: string)
    requires NoSlash(a) && a != []
    ensures Segment(a + "/" + b) == Some((a, b))
  {
    var s := a + "/" + b;
    var n := UpToSlash(s);
    assert s[|a|] == '/';
    assert forall i :: 0 <= i < |a| ==> s[i] == a[i];
    assert n == |a|;
    assert s[..n] == a && s[n + 1..] == b;
  }

  lemma WordPlain(kind: Kind)
    ensures NoSlash(Word(kind)) && Word(kind) != []
    ensures Lower(Word(kind)) == Word(kind) && KindOf(Word(kind)) == Some(kind)
  {
  }

  /** A segment is what stands before the first slash, if it is not empty. */
  lemma SegmentMeans(s: string, a: string, b: string)
    ensures Segment(s) == Some((a, b)) <==> NoSlash(a) && a != "" && s == a + "/" + b
  {
    if Segment(s) == Some((a, b)) {
      var n := UpToSlash(s);
      assert s == s[..n] + [s[n]] + s[n + 1..];
    }
    if NoSlash(a) && a != "" && s == a + "/" + b {
      SegmentOf(a, b);
    }
  }

  /** Letter by letter the same, with capitals for small letters allowed. */
  predicate SameLetters(s: string, small: string) {
    && |s| == |small|
    && forall i :: 0 <= i < |s| ==>
         s[i] == small[i] || ('A' <= s[i] <= 'Z' && s[i] as int + 32 == small[i] as int)
  }

  predicate NoCapital(s: string) {
    forall i :: 0 <= i < |s| ==> !('A' <= s[i] <= 'Z')
  }

  lemma LowerMeans(s: string, small: string)
    requires NoCapital(small)
    ensures Lower(s) == small <==> SameLetters(s, small)
  {
    if Lower(s) == small {
      forall i | 0 <= i < |s| ensures s[i] == small[i] || ('A' <= s[i] <= 'Z' && s[i] as int + 32 == small[i] as int) {
        assert Lower(s)[i] == small[i];
      }
    }
    if SameLetters(s, small) {
      assert forall i :: 0 <= i < |s| ==> Lower(s)[i] == small[i];
    }
  }

  /** `/manifests/`, a non-empty segment and a slash. */
  ghost predicate TripShape(s: string, trip: string) {
    NoSlash(trip) && trip != "" && exists post: string :: s == "/manifests/" + (trip + "/" + post)
  }

  /** `/manifests/`, a segment, a word for the kind and a slash, in letters of either case. */
  ghost predicate KindShape(s: string, kind: Kind) {
    exists mark: string, seg: string, word: string, post: string ::
      && s == mark + (seg + "/" + (word + "/" + post))
      && SameLetters(mark, "/manifests/") && NoSlash(seg) && seg != "" && SameLetters(word, Word(kind))
  }

  lemma TripHereMeans(s: string, trip: string)
    ensures TripHere(s) == Some(trip) <==> TripShape(s, trip)
  {
    hide Segment;
    if TripHere(s) == Some(trip) {
      var (a, b) := Segment(s[|MARK|..]).value;
      SegmentMeans(s[|MARK|..], a, b);
      assert s == "/manifests/" + (trip + "/" + b);
    }
    if TripShape(s, trip) {
      var post: string :| s == "/manifests/" + (trip + "/" + post);
      SegmentMeans(trip + "/" + post, trip, post);
      assert s[|MARK|..] == trip + "/" + post && s[..|MARK|] == MARK;
    }
  }

  lemma WordLetters(kind: Kind, word: string)
    ensures KindOf(Lower(word)) == Some(kind) <==> SameLetters(word, Word(kind))
    ensures SameLetters(word, Word(kind)) ==> NoSlash(word) && word != ""
  {
    LowerMeans(word, Word(kind));
    WordPlain(kind);
    assert forall i :: 0 <= i < |word| && SameLetters(word, Word(kind)) ==> Word(kind)[i] != '/' && word[i] != '/';
  }

  lemma KindHereMeans(s: string, kind: Kind)
    ensures KindHere(s) == Some(kind) <==> KindShape(s, kind)
  {
    hide Segment, Lower, KindOf, SameLetters;
    if KindHere(s) == Some(kind) {
      var (seg, rest) := Segment(s[|MARK|..]).value;
      var (word, post) := Segment(rest).value;
      SegmentMeans(s[|MARK|..], seg, rest);
      SegmentMeans(rest, word, post);
      LowerMeans(s[..|MARK|], MARK);
      WordLetters(kind, word);
      assert s == s[..|MARK|] + s[|MARK|..];
      assert s == s[..|MARK|] + (seg + "/" + (word + "/" + post));
    }
    if KindShape(s, kind) {
      var mark: string, seg: string, word: string, post: string :|
        && s == mark + (seg + "/" + (word + "/" + post))
        && SameLetters(mark, "/manifests/") && NoSlash(seg) && seg != "" && SameLetters(word, Word(kind));
      MarkLength(mark);
      LowerMeans(mark, MARK);
      WordLetters(kind, word);
      SegmentMeans(seg + "/" + (word + "/" + post), seg, word + "/" + post);
      SegmentMeans(word + "/" + post, word, post);
      assert s[..|MARK|] == mark && s[|MARK|..] == seg + "/" + (word + "/" + post);
    }
  }

  lemma MarkLength(mark: string)
    requires SameLetters(mark, "/manifests/")
    ensures |mark| == |MARK|
  {
  }

  /** Of a key, the patterns read the first place that has their shape, and nothing if no place has. */
  lemma {:induction false} ExtractTripIsFirst(key: string)
    ensures ExtractTripId(key).None? ==> forall p, trip :: 0 <= p <= |key| ==> !TripShape(key[p..], trip)
    ensures ExtractTripId(key).Some? ==> exists p :: 0 <= p <= |key| && FirstTrip(key, p, ExtractTripId(key).value)
  {
    forall trip ensures TripHere(key) == Some(trip) <==> TripShape(key, trip) {
      TripHereMeans(key, trip);
    }
    hide TripHere, TripShape;
    assert key[0..] == key;
    if TripHere(key).Some? {
      assert FirstTrip(key, 0, ExtractTripId(key).value);
    } else if key != [] {
      ExtractTripIsFirst(key[1..]);
      forall p | 1 <= p <= |key| ensures key[p..] == key[1..][p - 1..] {
      }
      if ExtractTripId(key).Some? {
        var p :| 0 <= p <= |key[1..]| && FirstTrip(key[1..], p, ExtractTripId(key).value);
        assert FirstTrip(key, p + 1, ExtractTripId(key).value);
      }
    }
  }

  ghost predicate FirstTrip(key: string, p: nat, trip: string)
    requires p <= |key|
  {
    TripShape(key[p..], trip) && forall q, t :: 0 <= q < p ==> !TripShape(key[q..], t)
  }

  lemma {:induction false} ExtractKindIsFirst(key: string)
    ensures ExtractKind(key).None? ==> forall p, kind :: 0 <= p <= |key| ==> !KindShape(key[p..], kind)
    ensures ExtractKind(key).Some? ==> exists p :: 0 <= p <= |key| && FirstKind(key, p, ExtractKind(key).value)
  {
    forall kind ensures KindHere(key) == Some(kind) <==> KindShape(key, kind) {
      KindHereMeans(key, kind);
    }
    hide KindHere, KindShape;
    assert key[0..] == key;
    if KindHere(key).Some? {
      assert FirstKind(key, 0, ExtractKind(key).value);
    } else if key != [] {
      ExtractKindIsFirst(key[1..]);
      forall p | 1 <= p <= |key| ensures key[p..] == key[1..][p - 1..] {
      }
      if ExtractKind(key).Some? {
        var p :| 0 <= p <= |key[1..]| && FirstKind(key[1..], p, ExtractKind(key).value);
        assert FirstKind(key, p + 1, ExtractKind(key).value);
      }
    }
  }

  ghost predicate FirstKind(key: string, p: nat, kind: Kind)
    requires p <= |key|
  {
    KindShape(key[p..], kind) && forall q, k :: 0 <= q < p ==> !KindShape(key[q..], k)
  }

  // ----- Keys as the manifest service writes them -----

  /** `${tenantId}/manifests/${tripId}/${kind}/${file}` */
  function StorageKey(tenant: string, trip: string, kind: Kind, file: string): string {
    tenant + MARK + trip + "/" + Word(kind) + "/" + file
  }

  lemma MarkPlain()
    ensures Lower(MARK) == MARK
  {
  }

  lemma MatchesAt(trip: string, kind: Kind, file: string)
    requires NoSlash(trip) && trip != []
    ensures TripHere(MARK + trip + "/" + Word(kind) + "/" + file) == Some(trip)
    ensures KindHere(MARK + trip + "/" + Word(kind) + "/" + file) == Some(kind)
  {
    var tail := Word(kind) + "/" + file;
    var s := MARK + trip + "/" + Word(kind) + "/" + file;
    assert s == MARK + (trip + "/" + tail);
    assert s[..|MARK|] == MARK && s[|MARK|..] == trip + "/" + tail;
    SegmentOf(trip, tail);
    WordPlain(kind);
    SegmentOf(Word(kind), file);
    MarkPlain();
  }

  /** No match starts at a character other than a slash. */
  lemma OnlyAtSlash(s: string)
    requires s != [] && s[0] != '/'
    ensures TripHere(s).None? && KindHere(s).None?
  {
    hide Segment;
    assert MARK[0] == '/';
    if |s| >= |MARK| {
      assert Lower(s[..|MARK|])[0] == LowerChar(s[0]) && LowerChar(s[0]) != '/';
    }
  }

  lemma {:induction false} SkipPlain(pre: string, s: string)
    requires NoSlash(pre)
    ensures ExtractTripId(pre + s) == ExtractTripId(s) && ExtractKind(pre + s) == ExtractKind(s)
  {
    hide TripHere, KindHere;
    if pre == [] {
      assert pre + s == s;
    } else {
      OnlyAtSlash(pre + s);
      assert (pre + s)[1..] == pre[1..] + s;
      SkipPlain(pre[1..], s);
    }
  }

  /** The parsers read back the trip and the kind from every key the service writes. */
  lemma KeyReadsBack(tenant: string, trip: string, kind: Kind, file: string)
    requires NoSlash(tenant) && NoSlash(trip) && trip != []
    ensures ExtractTripId(StorageKey(tenant, trip, kind, file)) == Some(trip)
    ensures ExtractKind(StorageKey(tenant, trip, kind, file)) == Some(kind)
  {
    hide TripHere, KindHere;
    var s := MARK + trip + "/" + Word(kind) + "/" + file;
    assert StorageKey(tenant, trip, kind, file) == tenant + s;
    SkipPlain(tenant, s);
    MatchesAt(trip, kind, file);
  }

  // ----- The run over the signatures -----

  /** `declared` is the kind the log entry names, ALL if it names none. */
  datatype Signature = Signature(id: Id, tenant: Id, resource: string, declared: Kind, user: Option<Id>, at: int)

  datatype Key = Key(tenant: Id, trip: string, kind: Kind)

  datatype Manifest = Manifest(storageKey: string, pdf: Option<string>, signedBy: Id, signedAt: int)

  type Table = map<Key, Manifest>

  /** A signed PDF in the audit log; an empty key counts as none. */
  datatype PdfLog = PdfLog(resource: string, pdfKey: Option<string>)

  const RESOURCE_PREFIX := "Manifest:"

  /** The storage key a resource names; an empty one counts as none. */
  function StorageKeyOf(resource: string): Option<string> {
    if RESOURCE_PREFIX <= resource && |resource| > |RESOURCE_PREFIX| then Some(resource[|RESOURCE_PREFIX|..]) else None
  }

  /** The row a signature is about, if its key can be read. */
  function KeyOf(s: Signature): Option<Key> {
    match StorageKeyOf(s.resource)
    case None => None
    case Some(storageKey) =>
      match ExtractTripId(storageKey)
      case None => None
      case Some(trip) =>
        var kind := match ExtractKind(storageKey) case Some(k) => k case None => s.declared;
        Some(Key(s.tenant, trip, kind))
  }

  datatype Fate = Failed | OrphanTrip | AlreadyPresent | Created

  /** What the database holds besides the manifests, and at which log entries the insert throws. */
  datatype Context = Context(trips: set<(Id, string)>, pdfs: map<string, string>, throws: set<Id>)

  function FateOf(table: Table, ctx: Context, s: Signature): Fate {
    match KeyOf(s)
    case None => Failed
    case Some(key) =>
      if (key.tenant, key.trip) !in ctx.trips then OrphanTrip
      else if key in table then AlreadyPresent
      else if s.user.None? || s.id in ctx.throws then Failed
      else Created
  }

  function RowOf(ctx: Context, s: Signature): Manifest
    requires KeyOf(s).Some? && s.user.Some?
  {
    Manifest(StorageKeyOf(s.resource).value, if s.resource in ctx.pdfs then Some(ctx.pdfs[s.resource]) else None,
             s.user.value, s.at)
  }

  function Step(table: Table, ctx: Context, s: Signature): Table {
    if FateOf(table, ctx, s).Created? then table[KeyOf(s).value := RowOf(ctx, s)] else table
  }

  function After(table: Table, ctx: Context, sigs: seq<Signature>): Table {
    if sigs == [] then table else Step(After(table, ctx, sigs[..|sigs| - 1]), ctx, sigs[|sigs| - 1])
  }

  /** How many of the signatures meet a fate. */
  function Tally(table: Table, ctx: Context, sigs: seq<Signature>, f: Fate): nat {
    if sigs == [] then 0
    else
      var front := sigs[..|sigs| - 1];
      Tally(table, ctx, front, f) + if FateOf(After(table, ctx, front), ctx, sigs[|sigs| - 1]) == f then 1 else 0
  }

  function PdfIndex(logs: seq<PdfLog>): map<string, string> {
    if logs == [] then map[]
    else
      var (before, l) := (PdfIndex(logs[..|logs| - 1]), logs[|logs| - 1]);
      if l.pdfKey.Some? && l.pdfKey.value != "" then before[l.resource := l.pdfKey.value] else before
  }

  class ManifestDb {
    var manifests: Table

    method IndexPdfs(logs: seq<PdfLog>) returns (pdfs: map<string, string>)
      ensures pdfs == PdfIndex(logs)
    {
      pdfs := map[];
      for i := 0 to |logs|
        invariant pdfs == PdfIndex(logs[..i])
      {
        assert logs[..i + 1][..i] == logs[..i];
        if logs[i].pdfKey.Some? && logs[i].pdfKey.value != "" {
          pdfs := pdfs[logs[i].resource := logs[i].pdfKey.value];
        }
      }
      assert logs[..|logs|] == logs;
    }

    /** One turn of the loop. */
    method Rebuild(ctx: Context, s: Signature) returns (f: Fate)
      modifies this
      ensures f == FateOf(old(manifests), ctx, s) && manifests == Step(old(manifests), ctx, s)
    {
      var storageKey := StorageKeyOf(s.resource);
      if storageKey.None? {
        return Failed;
      }
      var trip := ExtractTripId(storageKey.value);
      if trip.None? {
        return Failed;
      }
      var found := ExtractKind(storageKey.value);
      var kind := if found.Some? then found.value else s.declared;
      if (s.tenant, trip.value) !in ctx.trips {
        return OrphanTrip;
      }
      if Key(s.tenant, trip.value, kind) in manifests {
        return AlreadyPresent;
      }
      if s.user.None? {
        return Failed;
      }
      if s.id in ctx.throws {
        return Failed;
      }
      var pdf := if s.resource in ctx.pdfs then Some(ctx.pdfs[s.resource]) else None;
      manifests := manifests[Key(s.tenant, trip.value, kind) := Manifest(storageKey.value, pdf, s.user.value, s.at)];
      f := Created;
    }

    /** The whole run: the table, and the four counters, which always add up to the signatures scanned. */
    method Run(trips: set<(Id, string)>, pdfLogs: seq<PdfLog>, throws: set<Id>, sigs: seq<Signature>)
      returns (created: nat, alreadyPresent: nat, orphanTrip: nat, failed: nat)
      modifies this
      ensures var ctx := Context(trips, PdfIndex(pdfLogs), throws);
        && manifests == After(old(manifests), ctx, sigs)
        && created == Tally(old(manifests), ctx, sigs, Created)
        && alreadyPresent == Tally(old(manifests), ctx, sigs, AlreadyPresent)
        && orphanTrip == Tally(old(manifests), ctx, sigs, OrphanTrip)
        && failed == Tally(old(manifests), ctx, sigs, Failed)
      ensures created + alreadyPresent + orphanTrip + failed == |sigs|
      ensures created == |manifests| - |old(manifests)|
    {
      var pdfs := IndexPdfs(pdfLogs);
      var ctx := Context(trips, pdfs, throws);
      created, alreadyPresent, orphanTrip, failed := 0, 0, 0, 0;
      ghost var was := manifests;
      for i := 0 to |sigs|
        invariant manifests == After(was, ctx, sigs[..i])
        invariant created == Tally(was, ctx, sigs[..i], Created)
        invariant alreadyPresent == Tally(was, ctx, sigs[..i], AlreadyPresent)
        invariant orphanTrip == Tally(was, ctx, sigs[..i], OrphanTrip)
        invariant failed == Tally(was, ctx, sigs[..i], Failed)
      {
        assert sigs[..i + 1][..i] == sigs[..i];
        var f := Rebuild(ctx, sigs[i]);
        match f {
          case Created => created := created + 1;
          case AlreadyPresent => alreadyPresent := alreadyPresent + 1;
          case OrphanTrip => orphanTrip := orphanTrip + 1;
          case Failed => failed := failed + 1;
        }
      }
      assert sigs[..|sigs|] == sigs;
      FatesAddUp(was, ctx, sigs);
    }
  }

  /** Every signature meets one fate, and each created fate is one more row. */
  lemma {:induction false} FatesAddUp(table: Table, ctx: Context, sigs: seq<Signature>)
    ensures Tally(table, ctx, sigs, Created) + Tally(table, ctx, sigs, AlreadyPresent)
          + Tally(table, ctx, sigs, OrphanTrip) + Tally(table, ctx, sigs, Failed) == |sigs|
    ensures |After(table, ctx, sigs)| == |table| + Tally(table, ctx, sigs, Created)
  {
    hide KeyOf, RowOf;
    if sigs != [] {
      FatesAddUp(table, ctx, sigs[..|sigs| - 1]);
    }
  }

  // ----- Which rows appear -----

  /** The signature can give its key a row: readable, trip present, signed by someone, insert not refused. */
  predicate Usable(ctx: Context, s: Signature, key: Key) {
    && KeyOf(s) == Some(key) && (key.tenant, key.trip) in ctx.trips
    && s.user.Some? && s.id !in ctx.throws
  }

  function FirstUsable(ctx: Context, sigs: seq<Signature>, key: Key): Option<Signature> {
    if sigs == [] then None
    else
      var before := FirstUsable(ctx, sigs[..|sigs| - 1], key);
      if before.Some? then before
      else if Usable(ctx, sigs[|sigs| - 1], key) then Some(sigs[|sigs| - 1]) else None
  }

  ghost predicate NoneEarlier(ctx: Context, sigs: seq<Signature>, key: Key, first: Signature) {
    forall s :: s in sigs && Usable(ctx, s, key) ==> first.at <= s.at
  }

  /** Of the usable signatures of a key it is the earliest, when they come in the order they were made. */
  lemma {:induction false} FirstUsableIsEarliest(ctx: Context, sigs: seq<Signature>, key: Key)
    requires forall i, j :: 0 <= i < j < |sigs| ==> sigs[i].at <= sigs[j].at
    ensures FirstUsable(ctx, sigs, key).Some? <==> exists s :: s in sigs && Usable(ctx, s, key)
    ensures var r := FirstUsable(ctx, sigs, key);
      r.Some? ==> r.value in sigs && Usable(ctx, r.value, key) && NoneEarlier(ctx, sigs, key, r.value)
  {
    hide Usable;
    if sigs != [] {
      var (front, last) := (sigs[..|sigs| - 1], sigs[|sigs| - 1]);
      FirstUsableIsEarliest(ctx, front, key);
      assert sigs == front + [last];
      assert forall s :: s in front ==> s.at <= last.at;
    }
  }

  function NewRow(ctx: Context, sigs: seq<Signature>, key: Key): Option<Manifest> {
    match FirstUsable(ctx, sigs, key)
    case Some(s) => if KeyOf(s).Some? && s.user.Some? then Some(RowOf(ctx, s)) else None
    case None => None
  }

  /** Under every key: the row that was there, else one made from the first usable signature, else nothing. */
  lemma {:induction false} RowsAfter(table: Table, ctx: Context, sigs: seq<Signature>, key: Key)
    ensures Get(After(table, ctx, sigs), key) == if key in table then Some(table[key]) else NewRow(ctx, sigs, key)
    ensures key !in table ==> (key in After(table, ctx, sigs) <==> FirstUsable(ctx, sigs, key).Some?)
  {
    hide KeyOf, StorageKeyOf;
    if sigs != [] {
      RowsAfter(table, ctx, sigs[..|sigs| - 1], key);
    }
  }

  /** When no insert throws, a second pass over the same log creates nothing and changes nothing. */
  lemma {:induction false} SecondPassCreatesNone(
      table: Table, ctx: Context, sigs: seq<Signature>, again: seq<Signature>)
    requires ctx.throws == {} && forall s :: s in again ==> s in sigs
    ensures var once := After(table, ctx, sigs);
      After(once, ctx, again) == once && Tally(once, ctx, again, Created) == 0
  {
    var once := After(table, ctx, sigs);
    if again != [] {
      var (front, last) := (again[..|again| - 1], again[|again| - 1]);
      assert again == front + [last];
      SecondPassCreatesNone(table, ctx, sigs, front);
      if KeyOf(last).Some? && last.user.Some? {
        RowsAfter(table, ctx, sigs, KeyOf(last).value);
        UsableIsFound(ctx, sigs, last);
      }
    }
  }

  lemma {:induction false} UsableIsFound(ctx: Context, sigs: seq<Signature>, s: Signature)
    requires s in sigs && KeyOf(s).Some?
    ensures Usable(ctx, s, KeyOf(s).value) ==> FirstUsable(ctx, sigs, KeyOf(s).value).Some?
  {
    hide Usable;
    var (front, last) := (sigs[..|sigs| - 1], sigs[|sigs| - 1]);
    assert sigs == front + [last];
    if s != last {
      UsableIsFound(ctx, front, s);
    }
  }

  // ----- Which row a signature makes -----

  /**
   * A signature of a key the manifest service writes is about that trip and kind, whatever kind it declares, and its
   * row has that key, the PDF indexed under the resource if any, and who signed when.
   */
  lemma RowOfWrittenKey(ctx: Context, s: Signature, tenant: string, trip: string, kind: Kind, file: string)
    requires NoSlash(tenant) && NoSlash(trip) && trip != []
    requires s.resource == "Manifest:" + StorageKey(tenant, trip, kind, file)
    ensures KeyOf(s) == Some(Key(s.tenant, trip, kind))
    ensures s.user.Some? ==>
      RowOf(ctx, s) ==
        Manifest(StorageKey(tenant, trip, kind, file), Get(ctx.pdfs, s.resource), s.user.value, s.at)
  {
    hide ExtractTripId, ExtractKind;
    var key := StorageKey(tenant, trip, kind, file);
    KeyReadsBack(tenant, trip, kind, file);
    assert s.resource[|RESOURCE_PREFIX|..] == key;
    assert key != [] by {
      assert |key| >= |MARK|;
    }
  }

  /** The kind a signature declares counts only where its key has none to read. */
  lemma DeclaredKindCounts(s: Signature)
    ensures var key := StorageKeyOf(s.resource);
      KeyOf(s).Some? <==> key.Some? && ExtractTripId(key.value).Some?
    ensures KeyOf(s).Some? ==>
      var key := StorageKeyOf(s.resource).value;
      && KeyOf(s).value.tenant == s.tenant && Some(KeyOf(s).value.trip) == ExtractTripId(key)
      && (ExtractKind(key).Some? ==> Some(KeyOf(s).value.kind) == ExtractKind(key))
      && (ExtractKind(key).None? ==> KeyOf(s).value.kind == s.declared)
  {
  }

  /** What the resource of a log entry must look like to name a key. */
  lemma ResourceNamesKey(resource: string)
    ensures StorageKeyOf(resource).Some? <==> exists key: string :: key != "" && resource == "Manifest:" + key
    ensures forall key: string :: key != "" ==> StorageKeyOf("Manifest:" + key) == Some(key)
  {
    forall key: string | key != "" ensures StorageKeyOf("Manifest:" + key) == Some(key) {
      assert ("Manifest:" + key)[|RESOURCE_PREFIX|..] == key;
    }
    if StorageKeyOf(resource).Some? {
      assert resource == "Manifest:" + resource[|RESOURCE_PREFIX|..];
    }
  }

  /** The fates, told apart: an unreadable key fails; then a trip that is gone; then a row that is there. */
  lemma FatesMean(table: Table, ctx: Context, s: Signature)
    ensures FateOf(table, ctx, s) == OrphanTrip <==>
      KeyOf(s).Some? && (KeyOf(s).value.tenant, KeyOf(s).value.trip) !in ctx.trips
    ensures FateOf(table, ctx, s) == AlreadyPresent <==>
      KeyOf(s).Some? && (KeyOf(s).value.tenant, KeyOf(s).value.trip) in ctx.trips && KeyOf(s).value in table
    ensures FateOf(table, ctx, s) == Created <==>
      KeyOf(s).Some? && KeyOf(s).value !in table && Usable(ctx, s, KeyOf(s).value)
  {
  }

  /** The PDF indexed for a resource is that of its last log entry that names one. */
  lemma {:induction false} PdfIndexIsLast(logs: seq<PdfLog>, resource: string)
    ensures resource !in PdfIndex(logs) ==>
      forall i :: 0 <= i < |logs| && logs[i].resource == resource ==> !NamesPdf(logs[i])
    ensures resource in PdfIndex(logs) ==>
      exists i :: 0 <= i < |logs| && IsLastPdf(logs, resource, PdfIndex(logs)[resource], i)
  {
    if logs != [] {
      var (front, last) := (logs[..|logs| - 1], logs[|logs| - 1]);
      PdfIndexIsLast(front, resource);
      assert forall i :: 0 <= i < |front| ==> front[i] == logs[i];
      if last.resource == resource && NamesPdf(last) {
        assert IsLastPdf(logs, resource, last.pdfKey.value, |front|);
      } else if resource in PdfIndex(front) {
        var key := PdfIndex(front)[resource];
        var i :| 0 <= i < |front| && IsLastPdf(front, resource, key, i);
        assert IsLastPdf(logs, resource, key, i);
      }
    }
  }

  predicate IsLastPdf(logs: seq<PdfLog>, resource: string, key: string, i: nat)
    requires i < |logs|
  {
    && logs[i] == PdfLog(resource, Some(key)) && NamesPdf(logs[i])
    && forall j :: i < j < |logs| && logs[j].resource == resource ==> !NamesPdf(logs[j])
  }

  predicate NamesPdf(l: PdfLog) {
    l.pdfKey.Some? && l.pdfKey.value != ""
  }
}
