/** What is listed can be opened: the two queries agree, exactly as far as the
    stored identifier is free of surrounding blanks. */
module HistoryAccess {
  import opened Prelude
  import opened History
  import opened HistoryTheorems

  ghost predicate NonBlankIds(s: Store) { forall u :: u in s.projections ==> Strip(u) != "" }

  lemma IndexedKeepsNonBlank(s: Store, c: Call)
    requires NonBlankIds(s)
    ensures NonBlankIds(Indexed(s, c))
  {
    hide Strip, LinksOf, RolesOf, SubjectProblem, AddLinks;
  }

  lemma {:induction false} RunKeepsNonBlank(s: Store, calls: seq<Call>)
    requires NonBlankIds(s)
    ensures NonBlankIds(Run(s, calls))
    decreases |calls|
  {
    hide NonBlankIds, Indexed;
    if calls != [] {
      IndexedKeepsNonBlank(s, calls[0]);
      RunKeepsNonBlank(Indexed(s, calls[0]), calls[1..]);
    }
  }

  /** A page shows listed rows of a subject the reader may see. */
  lemma PageShowsListed(s: Store, subject: Subject, a: Access, limit: int, cursor: Option<string>, row: Row)
    requires var r := ListBySubject(s, subject, a, limit, cursor); r.Ok? && row in r.value.rows
    ensures var normalized := Subject(subject.kind, Upper(Strip(subject.id)));
            row in Listing(s, normalized) && CanAccess(normalized, a) && !LacksReason(a)
  {
    hide Listing, Strip, Upper, CanAccess, LacksReason, EncodeCursor, DecodeCursor, KeyLt;
    var normalized := Subject(subject.kind, Upper(Strip(subject.id)));
    var rows := Listing(s, normalized);
    var page := ListBySubject(s, subject, a, limit, cursor).value;
    var i :| 0 <= i < |page.rows| && page.rows[i] == row;
    if cursor.Some? {
      var kept := OlderThan(rows, DecodeCursor(cursor.value).value);
      assert kept[i] == row && row in kept;
    } else {
      assert rows[i] == row;
    }
  }

  /** The roles seen through one link are among the roles seen through all. */
  lemma {:induction false} LinkRolesMatch(s: Store, u: string, a: Access, link: Link)
    requires u in s.links && link in s.links[u] && CanAccess(link.subject, a) && link.roles != []
    ensures MatchedRoles(s.links[u], a) != {}
    ensures forall role :: role in link.roles ==> role in MatchedRoles(s.links[u], a)
  {
    hide CanAccess;
    var i :| 0 <= i < |s.links[u]| && s.links[u][i] == link;
    assert link.roles[0] in link.roles;
  }

  /** Every row of a page opens, with the same context, to the same transaction and
      at least the roles shown, if and only if its identifier was indexed stripped. */
  lemma {:induction false} ListedIsReadable(calls: seq<Call>, subject: Subject, a: Access, limit: int,
                                            cursor: Option<string>, row: Row)
    requires var r := ListBySubject(Run(EMPTY_HISTORY, calls), subject, a, limit, cursor); r.Ok? && row in r.value.rows
    ensures var u := row.projection.uttId;
            var entry := GetByUtt(Run(EMPTY_HISTORY, calls), u, a);
            && (entry.Ok? && entry.value.transaction == row.projection <==> Strip(u) == u)
            && (Strip(u) == u ==> entry.Ok? && forall role :: role in row.link.roles ==> role in entry.value.roles)
  {
    hide Run, Strip, Upper, CanAccess, LacksReason, Listing, ListBySubject, MatchedRoles;
    var s := Run(EMPTY_HISTORY, calls);
    EmptyIsOk();
    RunKeepsOk(EMPTY_HISTORY, calls);
    RunKeepsNonBlank(EMPTY_HISTORY, calls);
    PageShowsListed(s, subject, a, limit, cursor, row);
    var normalized := Subject(subject.kind, Upper(Strip(subject.id)));
    ListingIsExact(s, normalized);
    assert ShownRow(s, normalized, row);
    var u := row.projection.uttId;
    LinkHasRoles(s, u, row.link);
    LinkRolesMatch(s, u, a, row.link);
    SortedRolesKeep(MatchedRoles(s.links[u], a));
  }

  lemma LinkHasRoles(s: Store, u: string, link: Link)
    requires HistoryOk(s) && u in s.links && link in s.links[u]
    ensures link.roles != [] && u in s.projections
  {
    hide IndexAgrees, Aggregated;
    var i :| 0 <= i < |s.links[u]| && s.links[u][i] == link;
    assert LinksOk(u, s.links[u]);
  }

  // --------------------------------------------------------- a padded identifier

  const SHOP := Subject(MerchantId, "M")

  const SALE := Utt(true, "", [], 0, false, None, Some("M"), None, None, Actor("", ""), Actor("", ""))

  const SALE_CALL := Call(Sources(map["UTT-1" := SALE], {}), " UTT-1", 0)

  const CLERK := Access(None, ["M"], [], [], false, None)

  lemma SaleTexts()
    ensures Strip(" UTT-1") == "UTT-1" && Strip("M") == "M" && Upper("M") == "M" && Upper("") == ""
    ensures Strip("UTT-1") == "UTT-1"
  {
    var t := " UTT-1";
    assert t[1..] == "UTT-1" && Blank(t[0]);
    var u := "UTT-1";
    assert !Blank(u[0]) && !Blank(u[|u| - 1]);
    assert Strip(u) == u;
  }

  lemma SaleRoles()
    ensures RolesOf(SALE) == map[SHOP := {OriginMerchant}]
  {
    SaleTexts();
    hide Strip, Upper;
    assert |CUID_PREFIX| == 5 && |"MERCHANT"| == 8 && |"BRANCH"| == 6 && |"PARTNER"| == 7;
    var none: set<Role> := {};
    assert none + {OriginMerchant} == {OriginMerchant};
    var m: RoleMap := map[];
    assert AddOptional(m, MerchantId, SALE.merchant, OriginMerchant) == map[SHOP := {OriginMerchant}];
  }

  /** Indexing " UTT-1" succeeds and lists a row that its own identifier does not open. */
  lemma PaddedIdentifierDoesNotOpen()
    ensures var s := Indexed(EMPTY_HISTORY, SALE_CALL);
            && " UTT-1" in s.projections
            && (exists row :: row in Listing(s, SHOP) && row.projection.uttId == " UTT-1")
            && GetByUtt(s, " UTT-1", CLERK) == Err(ProjectionNotFound)
            && !IsUttId(" UTT-1")
  {
    SaleTexts();
    SaleRoles();
    hide Strip, Upper, RolesOf, LinksOf, Listing, AddLinks;
    var m := RolesOf(SALE);
    LinksAreAggregated(" UTT-1", m, 0);
    var links := LinksOf(" UTT-1", m, 0);
    assert SHOP in m.Keys;
    var s := Indexed(EMPTY_HISTORY, SALE_CALL);
    assert s.projections == map[" UTT-1" := ProjectionOf(SALE, " UTT-1", 0)] && s.links == map[" UTT-1" := links];
    EmptyIsOk();
    StepKeepsOk(EMPTY_HISTORY, SALE_CALL);
    ListingIsExact(s, SHOP);
    assert HasLink(s.links[" UTT-1"], SHOP);
    assert RowFor(s, SHOP, " UTT-1").value in Listing(s, SHOP);
    assert " UTT-1"[0] != UTT_PREFIX[0];
  }

  // ---------------------------------------------------- one row per transaction

  /** No two rows show the same transaction. */
  ghost predicate OneRowEach(rows: seq<Row>) {
    forall i, j :: 0 <= i < j < |rows| ==> Strip(rows[i].projection.uttId) != Strip(rows[j].projection.uttId)
  }

  ghost predicate ListsOnce(s: Store) { forall subject :: OneRowEach(Listing(s, subject)) }

  /** Every transaction is stored under one spelling of its identifier. */
  ghost predicate OneSpelling(s: Store) {
    forall u, v :: u in s.projections && v in s.projections && Strip(u) == Strip(v) ==> u == v
  }

  /** What is stored is linked as its transaction says. */
  ghost predicate LinkedAs(utts: map<string, Utt>, s: Store, u: string) {
    u in s.projections && u in s.links ==>
      Strip(u) in utts && s.projections[u].payloadSha == utts[Strip(u)].payloadSha
      && forall subject :: HasLink(s.links[u], subject) <==> subject in RolesOf(utts[Strip(u)])
  }

  ghost predicate AllLinked(utts: map<string, Utt>, s: Store) { forall u :: LinkedAs(utts, s, u) }

  /** Calls that look transactions up in one contract store, whose contents never change. */
  ghost predicate OneSource(utts: map<string, Utt>, calls: seq<Call>) {
    forall i :: 0 <= i < |calls| ==> calls[i].sources.utts == utts
  }

  lemma StepKeepsLinked(utts: map<string, Utt>, s: Store, c: Call)
    requires HistoryOk(s) && AllLinked(utts, s) && c.sources.utts == utts
    ensures AllLinked(utts, Indexed(s, c))
  {
    hide HistoryOk, LinksOf, RolesOf, SubjectProblem, HasLink, AddLinks, Strip, Aggregated;
    var s' := Indexed(s, c);
    if s' != s {
      var t := utts[Strip(c.uttId)];
      RolesAreGiven(t);
      LinksAreAggregated(c.uttId, RolesOf(t), c.at);
      forall u ensures LinkedAs(utts, s', u) { assert LinkedAs(utts, s, u); }
    }
  }

  lemma {:induction false} RunKeepsLinked(utts: map<string, Utt>, s: Store, calls: seq<Call>)
    requires HistoryOk(s) && AllLinked(utts, s) && OneSource(utts, calls)
    ensures AllLinked(utts, Run(s, calls)) && HistoryOk(Run(s, calls))
    decreases |calls|
  {
    hide HistoryOk, Indexed, AllLinked;
    if calls != [] {
      StepKeepsLinked(utts, s, calls[0]);
      StepKeepsOk(s, calls[0]);
      RunKeepsLinked(utts, Indexed(s, calls[0]), calls[1..]);
    }
  }

  lemma OneSpellingListsOnce(s: Store, subject: Subject)
    requires HistoryOk(s) && OneSpelling(s)
    ensures OneRowEach(Listing(s, subject))
  {
    hide HistoryOk, Listing, Newer, Strip, RowFor;
    ListingIsExact(s, subject);
    var rows := Listing(s, subject);
    forall i, j | 0 <= i < j < |rows| ensures Strip(rows[i].projection.uttId) != Strip(rows[j].projection.uttId) {
      assert Newer(rows[i], rows[j]) && rows[i] in rows && rows[j] in rows;
      NewerDiffers(s, subject, rows[i], rows[j]);
    }
  }

  /** Two rows of a listing that are ordered are rows of two identifiers. */
  lemma NewerDiffers(s: Store, subject: Subject, a: Row, b: Row)
    requires Newer(a, b) && ShownRow(s, subject, a) && ShownRow(s, subject, b)
    ensures a.projection.uttId != b.projection.uttId && a.projection.uttId in s.projections
    ensures b.projection.uttId in s.projections
  {
    KeyLtAsymmetric(KeyOf(b), KeyOf(a));
  }

  /** Two spellings of one transaction are two rows for every subject it is linked to. */
  lemma {:induction false} TwoSpellingsListTwice(utts: map<string, Utt>, s: Store, u: string, v: string)
    requires HistoryOk(s) && AllLinked(utts, s) && u in s.projections && v in s.projections && Strip(u) == Strip(v)
    requires u != v
    ensures !ListsOnce(s)
  {
    hide Listing, Newer, Strip, RolesOf, RowFor, IndexAgrees, Aggregated;
    assert LinksOk(u, s.links[u]);
    var subject := s.links[u][0].subject;
    assert HasLink(s.links[u], subject);
    assert LinkedAs(utts, s, u) && LinkedAs(utts, s, v);
    ListingIsExact(s, subject);
    var rows := Listing(s, subject);
    RowNames(s, subject, u);
    RowNames(s, subject, v);
    var i :| 0 <= i < |rows| && rows[i] == RowFor(s, subject, u).value;
    var j :| 0 <= j < |rows| && rows[j] == RowFor(s, subject, v).value;
    if i < j { assert !OneRowEach(rows); } else { assert !OneRowEach(rows); }
  }

  lemma RowNames(s: Store, subject: Subject, u: string)
    requires HistoryOk(s) && RowFor(s, subject, u).Some?
    ensures RowFor(s, subject, u).value.projection.uttId == u
  {
    hide IndexAgrees, LinksOk;
  }

  /** After any index calls that look transactions up in one contract store: every
      listing shows each transaction once if and only if no transaction was indexed
      under two spellings of its identifier. */
  lemma {:induction false} ListsOnceIffOneSpelling(utts: map<string, Utt>, calls: seq<Call>)
    requires OneSource(utts, calls)
    ensures ListsOnce(Run(EMPTY_HISTORY, calls)) <==> OneSpelling(Run(EMPTY_HISTORY, calls))
  {
    hide Run, HistoryOk, AllLinked;
    var s := Run(EMPTY_HISTORY, calls);
    EmptyIsOk();
    EmptyIsLinked(utts);
    RunKeepsLinked(utts, EMPTY_HISTORY, calls);
    OnceIff(utts, s);
  }

  lemma OnceIff(utts: map<string, Utt>, s: Store)
    requires HistoryOk(s) && AllLinked(utts, s)
    ensures ListsOnce(s) <==> OneSpelling(s)
  {
    hide HistoryOk, AllLinked, OneRowEach, Strip;
    if OneSpelling(s) {
      forall subject ensures OneRowEach(Listing(s, subject)) { OneSpellingListsOnce(s, subject); }
    } else {
      var u, v :| u in s.projections && v in s.projections && Strip(u) == Strip(v) && u != v;
      TwoSpellingsListTwice(utts, s, u, v);
    }
  }

  lemma EmptyIsLinked(utts: map<string, Utt>)
    ensures AllLinked(utts, EMPTY_HISTORY)
  {
  }

  ghost predicate UnpaddedIds(s: Store) { forall u :: u in s.projections ==> Strip(u) == u }

  ghost predicate UnpaddedCalls(calls: seq<Call>) {
    forall i :: 0 <= i < |calls| ==> Strip(calls[i].uttId) == calls[i].uttId
  }

  lemma {:induction false} RunKeepsUnpadded(s: Store, calls: seq<Call>)
    requires UnpaddedIds(s) && UnpaddedCalls(calls)
    ensures UnpaddedIds(Run(s, calls))
    decreases |calls|
  {
    hide Indexed, Strip;
    if calls != [] {
      IndexedAdds(s, calls[0]);
      RunKeepsUnpadded(Indexed(s, calls[0]), calls[1..]);
    }
  }

  lemma IndexedAdds(s: Store, c: Call)
    ensures forall u :: u in Indexed(s, c).projections ==> u in s.projections || u == c.uttId
  {
    hide Strip, LinksOf, RolesOf, SubjectProblem, AddLinks;
  }

  /** Index a transaction once more, after any calls with unpadded identifiers indexed it:
      every listing still shows each transaction once if and only if this call gives the
      identifier without blanks around it. */
  lemma {:induction false} ReindexListsOnceIffUnpadded(utts: map<string, Utt>, calls: seq<Call>, c: Call)
    requires OneSource(utts, calls) && UnpaddedCalls(calls) && c.sources.utts == utts
    requires IndexProblem(c.sources, c.uttId).None? && Strip(c.uttId) in Run(EMPTY_HISTORY, calls).projections
    ensures ListsOnce(Indexed(Run(EMPTY_HISTORY, calls), c)) <==> Strip(c.uttId) == c.uttId
  {
    hide Run, HistoryOk, AllLinked, ListsOnce, Indexed, IndexProblem, Strip;
    var s := Run(EMPTY_HISTORY, calls);
    EmptyIsOk();
    EmptyIsLinked(utts);
    RunKeepsLinked(utts, EMPTY_HISTORY, calls);
    RunKeepsUnpadded(EMPTY_HISTORY, calls);
    StepKeepsLinked(utts, s, c);
    StepKeepsOk(s, c);
    OnceIff(utts, Indexed(s, c));
    AnotherSpelling(utts, s, c);
    IndexedAdds(s, c);
    assert Strip(c.uttId) != c.uttId ==> Strip(Strip(c.uttId)) == Strip(c.uttId) by { StripTwice(c.uttId); }
  }

  /** A transaction that is stored is accepted under any spelling. */
  lemma AnotherSpelling(utts: map<string, Utt>, s: Store, c: Call)
    requires HistoryOk(s) && AllLinked(utts, s) && c.sources.utts == utts && IndexProblem(c.sources, c.uttId).None?
    requires Strip(c.uttId) in s.projections
    ensures Strip(c.uttId) in Indexed(s, c).projections && c.uttId in Indexed(s, c).projections
  {
    hide SubjectProblem, RolesOf, LinksOf, AddLinks, Strip, IndexAgrees, HasLink;
    var id := Strip(c.uttId);
    StripTwice(c.uttId);
    assert LinkedAs(utts, s, id) && LinksOk(id, s.links[id]);
    var subject := s.links[id][0].subject;
    assert HasLink(s.links[id], subject) by { LinkAt(s.links[id], 0); }
    RolesAreGiven(utts[id]);
    LinksAreAggregated(c.uttId, RolesOf(utts[id]), c.at);
  }
}
