/** What holds of the history store after any sequence of index calls, and what a
    reader who follows the cursors sees while more calls go on. */
module HistoryTheorems {
  import opened Prelude
  import opened History

  datatype Call = Call(sources: Sources, uttId: string, at: int)

  ghost function Indexed(s: Store, c: Call): Store {
    match Index(s, c.sources, c.uttId, c.at) case Ok((s', _)) => s' case Err(_) => s
  }

  ghost function Run(s: Store, calls: seq<Call>): Store
    decreases |calls|
  {
    if calls == [] then s else Run(Indexed(s, calls[0]), calls[1..])
  }

  // ------------------------------------------------------ index and links agree

  predicate HasLink(links: seq<Link>, subject: Subject) { exists i :: 0 <= i < |links| && links[i].subject == subject }

  ghost predicate LinksOk(uttId: string, links: seq<Link>) {
    && links != [] && Aggregated(links)
    && (forall i :: 0 <= i < |links| ==> links[i].uttId == uttId && links[i].roles != [])
  }

  ghost predicate IndexAgrees(s: Store) {
    forall subject, u :: u in IndexOf(s.index, subject) <==> u in s.links && HasLink(s.links[u], subject)
  }

  ghost predicate HistoryOk(s: Store) {
    && s.links.Keys == s.projections.Keys && IndexAgrees(s)
    && (forall u :: u in s.projections ==> s.projections[u].uttId == u && LinksOk(u, s.links[u]))
  }

  lemma {:induction false} AddLinksAt(index: map<Subject, set<string>>, links: seq<Link>, uttId: string,
                                      subject: Subject)
    ensures IndexOf(AddLinks(index, links, uttId), subject)
            == IndexOf(index, subject) + (if HasLink(links, subject) then {uttId} else {})
  {
    if links != [] {
      var init := links[..|links| - 1];
      AddLinksAt(index, init, uttId, subject);
      assert HasLink(links, subject) <==> HasLink(init, subject) || links[|links| - 1].subject == subject by {
        if i :| 0 <= i < |init| && init[i].subject == subject { assert links[i].subject == subject; }
        if i :| 0 <= i < |links| && links[i].subject == subject { assert i < |init| ==> init[i].subject == subject; }
      }
    }
  }

  lemma CommitKeepsOk(s: Store, p: Projection, links: seq<Link>)
    requires HistoryOk(s) && Commit(s, p, links).Ok?
    requires forall i :: 0 <= i < |links| ==> links[i].roles != []
    ensures HistoryOk(Commit(s, p, links).value.0)
  {
    hide AddLinks, HasLink;
    var s' := Commit(s, p, links).value.0;
    if p.uttId !in s.projections {
      forall subject, u ensures u in IndexOf(s'.index, subject) <==> u in s'.links && HasLink(s'.links[u], subject) {
        AddLinksAt(s.index, links, p.uttId, subject);
        assert u in IndexOf(s.index, subject) <==> u in s.links && HasLink(s.links[u], subject);
      }
    }
  }

  // ---------------------------------------------------------- what index links

  ghost predicate RolesGiven(m: RoleMap) { forall x :: x in m ==> m[x] != {} }

  lemma AddingGives(m: RoleMap, kind: SubjectKind, id: Option<string>, actor: Actor, role: Role)
    requires RolesGiven(m)
    ensures RolesGiven(AddOptional(m, kind, id, role)) && RolesGiven(AddActor(m, actor, role))
  {
    hide Upper, Strip;
  }

  lemma RolesAreGiven(u: Utt)
    ensures RolesGiven(RolesOf(u))
  {
    hide AddOptional, AddActor;
    var m: RoleMap := map[];
    var role := if u.personal then Payer else Authorizer;
    AddingGives(m, ContinuityUid, u.continuityUid, u.payer, role);
    m := AddOptional(m, ContinuityUid, u.continuityUid, role);
    AddingGives(m, MerchantId, u.merchant, u.payer, OriginMerchant);
    m := AddOptional(m, MerchantId, u.merchant, OriginMerchant);
    AddingGives(m, BranchId, u.branch, u.payer, OriginBranch);
    m := AddOptional(m, BranchId, u.branch, OriginBranch);
    AddingGives(m, PartnerId, u.partner, u.payer, OriginPartner);
    m := AddOptional(m, PartnerId, u.partner, OriginPartner);
    AddingGives(m, PartnerId, None, u.payer, Payer);
    m := AddActor(m, u.payer, Payer);
    AddingGives(m, PartnerId, None, u.beneficiary, Beneficiary);
  }

  lemma SortedRolesKeep(roles: set<Role>)
    ensures forall r :: r in SortedRoles(roles) <==> r in roles
    ensures roles != {} ==> SortedRoles(roles) != []
  {
    forall r: Role ensures r in ROLE_ORDER {
      match r
      case Authorizer => assert ROLE_ORDER[0] == r;
      case Beneficiary => assert ROLE_ORDER[1] == r;
      case OriginBranch => assert ROLE_ORDER[2] == r;
      case OriginMerchant => assert ROLE_ORDER[3] == r;
      case OriginPartner => assert ROLE_ORDER[4] == r;
      case Payer => assert ROLE_ORDER[5] == r;
    }
    if r :| r in roles { assert r in SortedRoles(roles); }
  }

  lemma SubjectOrder(a: Subject, b: Subject)
    requires a != b
    ensures SubjectLt(a, b) || SubjectLt(b, a)
  {
    if a.kind == b.kind { StrLtTotal(a.id, b.id); }
  }

  lemma LinkBeforeTransitive()
    ensures Transitive(LinkBefore)
  {
    forall x, y, z | LinkBefore(x, y) && LinkBefore(y, z) ensures LinkBefore(x, z) {
      if x.subject.kind == y.subject.kind == z.subject.kind {
        StrLtTransitive(x.subject.id, y.subject.id, z.subject.id);
      }
    }
  }

  lemma LinkBeforeIrreflexive(a: Link, b: Link)
    requires LinkBefore(a, b)
    ensures a.subject != b.subject
  {
    if a.subject == b.subject { StrLtAsymmetric(a.subject.id, b.subject.id); }
  }

  lemma {:induction false} EachCompares(uttId: string, m: RoleMap, subjects: seq<Subject>, at: int)
    requires Distinct(subjects) && forall x :: x in subjects ==> x in m
    ensures Comparable(LinkBefore, LinkEach(uttId, m, subjects, at))
  {
    hide LinkBefore, SortedRoles;
    var links := LinkEach(uttId, m, subjects, at);
    forall i, j | 0 <= i < j < |links| ensures LinkBefore(links[i], links[j]) || LinkBefore(links[j], links[i]) {
      LinksCompare(links[i], links[j]);
    }
  }

  lemma {:induction false} EachMembers(uttId: string, m: RoleMap, subjects: seq<Subject>, at: int, link: Link)
    requires forall x :: x in subjects ==> x in m
    ensures link in LinkEach(uttId, m, subjects, at)
            <==> link.subject in subjects && link == Link(uttId, link.subject, SortedRoles(m[link.subject]), at)
  {
    hide SortedRoles;
    var links := LinkEach(uttId, m, subjects, at);
    if link.subject in subjects && link == Link(uttId, link.subject, SortedRoles(m[link.subject]), at) {
      var i :| 0 <= i < |subjects| && subjects[i] == link.subject;
      assert links[i] == link;
    }
  }

  /** The links before they are sorted. */
  lemma {:induction false} LinksCollected(uttId: string, m: RoleMap, at: int)
    requires RolesGiven(m)
    ensures var raw := LinkEach(uttId, m, Arranged(m.Keys), at);
            && Comparable(LinkBefore, raw)
            && (forall link :: link in raw ==> link.uttId == uttId && link.roles != [] && link.subject in m)
            && (forall subject :: subject in m ==> HasLink(raw, subject))
  {
    hide LinkBefore, SortedRoles, HasLink, LinkEach, Comparable, Distinct;
    var subjects := Arranged(m.Keys);
    var raw := LinkEach(uttId, m, subjects, at);
    EachCompares(uttId, m, subjects, at);
    forall link | link in raw ensures link.uttId == uttId && link.roles != [] && link.subject in m {
      EachMembers(uttId, m, subjects, at, link);
      SortedRolesKeep(m[link.subject]);
    }
    forall subject | subject in m ensures HasLink(raw, subject) {
      var k :| 0 <= k < |subjects| && subjects[k] == subject;
      LinkAt(raw, k);
    }
  }

  lemma LinkAt(links: seq<Link>, k: nat)
    requires k < |links|
    ensures HasLink(links, links[k].subject)
  {
  }

  /** The indexer makes one link per subject, each with at least one role. */
  lemma LinksAreAggregated(uttId: string, m: RoleMap, at: int)
    requires RolesGiven(m)
    ensures var links := LinksOf(uttId, m, at);
            && Aggregated(links) && (m.Keys != {} ==> links != [])
            && (forall i :: 0 <= i < |links| ==> links[i].uttId == uttId && links[i].roles != [])
            && (forall subject :: HasLink(links, subject) <==> subject in m)
  {
    hide LinkBefore, LinkEach, RolesGiven, Sort, Aggregated, HasLink, Comparable;
    var raw := LinkEach(uttId, m, Arranged(m.Keys), at);
    var links := Sort(LinkBefore, raw);
    LinksCollected(uttId, m, at);
    SortedLinksAggregate(raw);
    forall subject ensures HasLink(links, subject) <==> subject in m { SortKeepsLinks(raw, m, subject); }
    if x :| x in m.Keys { assert HasLink(links, x); NotEmpty(links, x); }
  }

  lemma NotEmpty(links: seq<Link>, subject: Subject)
    requires HasLink(links, subject)
    ensures links != []
  {
  }

  lemma {:induction false} SortKeepsLinks(raw: seq<Link>, m: RoleMap, subject: Subject)
    requires forall link :: link in raw ==> link.subject in m
    requires subject in m ==> HasLink(raw, subject)
    ensures HasLink(Sort(LinkBefore, raw), subject) <==> subject in m
  {
    hide LinkBefore, Sort;
    var links := Sort(LinkBefore, raw);
    if subject in m {
      var k :| 0 <= k < |raw| && raw[k].subject == subject;
      assert raw[k] in links;
      var i :| 0 <= i < |links| && links[i] == raw[k];
    }
  }

  lemma {:induction false} SortedLinksAggregate(raw: seq<Link>)
    requires Comparable(LinkBefore, raw)
    ensures Aggregated(Sort(LinkBefore, raw))
  {
    hide LinkBefore, Sort;
    LinkBeforeTransitive();
    SortAscends(LinkBefore, raw);
    var links := Sort(LinkBefore, raw);
    forall i, j | 0 <= i < j < |links| ensures links[i].subject != links[j].subject {
      LinkBeforeIrreflexive(links[i], links[j]);
    }
  }

  lemma LinksCompare(a: Link, b: Link)
    requires a.subject != b.subject
    ensures LinkBefore(a, b) || LinkBefore(b, a)
  {
    SubjectOrder(a.subject, b.subject);
  }

  lemma StepKeepsOk(s: Store, c: Call)
    requires HistoryOk(s)
    ensures HistoryOk(Indexed(s, c)) && Grows(s, Indexed(s, c))
  {
    hide HistoryOk, LinksOf, RolesOf, SubjectProblem;
    if IndexProblem(c.sources, c.uttId).None? {
      var u := c.sources.utts[Strip(c.uttId)];
      RolesAreGiven(u);
      LinksAreAggregated(c.uttId, RolesOf(u), c.at);
      var p, links := ProjectionOf(u, c.uttId, c.at), LinksOf(c.uttId, RolesOf(u), c.at);
      if Commit(s, p, links).Ok? {
        CommitKeepsOk(s, p, links);
        CommitGrows(s, p, links);
      }
    }
  }

  /** Nothing that is stored is ever lost or rewritten. */
  ghost predicate Grows(s: Store, s': Store) {
    forall u :: u in s.projections && u in s.links ==>
      u in s'.projections && u in s'.links && s'.projections[u] == s.projections[u] && s'.links[u] == s.links[u]
  }

  lemma CommitGrows(s: Store, p: Projection, links: seq<Link>)
    requires Commit(s, p, links).Ok?
    ensures Grows(s, Commit(s, p, links).value.0)
  {
  }

  lemma {:induction false} RunKeepsOk(s: Store, calls: seq<Call>)
    requires HistoryOk(s)
    ensures HistoryOk(Run(s, calls)) && Grows(s, Run(s, calls))
    decreases |calls|
  {
    hide HistoryOk, Indexed;
    if calls != [] {
      StepKeepsOk(s, calls[0]);
      RunKeepsOk(Indexed(s, calls[0]), calls[1..]);
    }
  }

  lemma EmptyIsOk()
    ensures HistoryOk(EMPTY_HISTORY)
  {
  }

  // ------------------------------------------------------------------- listing

  lemma KeyLtTransitive(a: Key, b: Key, c: Key)
    requires KeyLt(a, b) && KeyLt(b, c)
    ensures KeyLt(a, c)
  {
    if a.acceptedAt == b.acceptedAt == c.acceptedAt { StrLtTransitive(a.uttId, b.uttId, c.uttId); }
  }

  lemma KeyLtAsymmetric(a: Key, b: Key)
    requires KeyLt(a, b)
    ensures !KeyLt(b, a) && a != b
  {
    if a.acceptedAt == b.acceptedAt { StrLtAsymmetric(a.uttId, b.uttId); }
  }

  lemma NewerIsAnOrder()
    ensures Transitive(Newer) && Asymmetric(Newer)
  {
    forall x, y, z | Newer(x, y) && Newer(y, z) ensures Newer(x, z) { KeyLtTransitive(KeyOf(z), KeyOf(y), KeyOf(x)); }
    forall x, y | Newer(x, y) ensures !Newer(y, x) { KeyLtAsymmetric(KeyOf(y), KeyOf(x)); }
  }

  lemma RowsCompare(a: Row, b: Row)
    requires a.projection.uttId != b.projection.uttId
    ensures Newer(a, b) || Newer(b, a)
  {
    StrLtTotal(a.projection.uttId, b.projection.uttId);
  }

  lemma {:induction false} RowsAt(s: Store, subject: Subject, ids: seq<string>)
    requires forall u :: u in ids ==> RowFor(s, subject, u).Some?
    ensures |RowsFor(s, subject, ids)| == |ids|
    ensures forall i :: 0 <= i < |ids| ==> RowFor(s, subject, ids[i]) == Some(RowsFor(s, subject, ids)[i])
  {
    hide RowFor;
    if ids != [] {
      var rows := RowsFor(s, subject, ids);
      assert ids[0] in ids && forall u :: u in ids[1..] ==> u in ids;
      RowsAt(s, subject, ids[1..]);
      forall i | 0 <= i < |ids| ensures RowFor(s, subject, ids[i]) == Some(rows[i]) {
        assert i > 0 ==> ids[i] == ids[1..][i - 1];
      }
    }
  }

  /** Rows taken for distinct identifiers are distinct transactions. */
  lemma {:induction false} RowsAreOnePerId(s: Store, subject: Subject, ids: seq<string>)
    requires forall u :: u in s.projections ==> s.projections[u].uttId == u
    requires Distinct(ids) && forall u :: u in ids ==> RowFor(s, subject, u).Some?
    ensures Comparable(Newer, RowsFor(s, subject, ids))
  {
    hide Newer, RowsFor;
    var rows := RowsFor(s, subject, ids);
    RowsAt(s, subject, ids);
    forall i, j | 0 <= i < j < |rows| ensures Newer(rows[i], rows[j]) || Newer(rows[j], rows[i]) {
      assert rows[i].projection.uttId == ids[i] && rows[j].projection.uttId == ids[j];
      RowsCompare(rows[i], rows[j]);
    }
  }

  /** The rows collected for a subject, before they are sorted. */
  lemma {:induction false} RowsCollected(s: Store, subject: Subject, ids: seq<string>)
    requires HistoryOk(s) && Distinct(ids)
    requires forall u :: u in ids <==> u in s.links && HasLink(s.links[u], subject)
    ensures var rows := RowsFor(s, subject, ids);
            && |rows| == |ids| && Comparable(Newer, rows)
            && (forall u :: u in ids ==> RowFor(s, subject, u).Some? && RowFor(s, subject, u).value in rows)
            && (forall row :: row in rows ==> ShownRow(s, subject, row))
  {
    hide Newer, LinksOk, RowsFor, IndexAgrees, HasLink;
    forall u | u in ids ensures RowFor(s, subject, u).Some? { LinkedHasRow(s, subject, u); }
    RowsAt(s, subject, ids);
    RowsAreOnePerId(s, subject, ids);
    var rows := RowsFor(s, subject, ids);
    forall u | u in ids ensures RowFor(s, subject, u).value in rows {
      var i :| 0 <= i < |ids| && ids[i] == u;
      assert rows[i] == RowFor(s, subject, u).value;
    }
    forall row | row in rows ensures ShownRow(s, subject, row) {
      var i :| 0 <= i < |rows| && rows[i] == row;
      assert RowFor(s, subject, ids[i]) == Some(row);
    }
  }

  /** A row shows a stored transaction and its own link to the subject. */
  ghost predicate ShownRow(s: Store, subject: Subject, row: Row) {
    var u := row.projection.uttId;
    u in s.links && row.link in s.links[u] && row.link.subject == subject && RowFor(s, subject, u) == Some(row)
  }

  /** The listing misses no linked transaction, never fails a lookup, shows each
      once, and runs strictly from newest to oldest. */
  lemma ListingIsExact(s: Store, subject: Subject)
    requires HistoryOk(s)
    ensures Ascending(Newer, Listing(s, subject))
    ensures |Listing(s, subject)| == |IndexOf(s.index, subject)|
    ensures forall u :: u in s.links && HasLink(s.links[u], subject) ==>
              RowFor(s, subject, u).Some? && RowFor(s, subject, u).value in Listing(s, subject)
    ensures forall row :: row in Listing(s, subject) ==> ShownRow(s, subject, row)
  {
    hide Newer, RowFor, RowsFor, IndexOf, HasLink, ShownRow;
    var ids := Arranged(IndexOf(s.index, subject));
    assert forall u :: u in ids <==> u in s.links && HasLink(s.links[u], subject);
    NewerIsAnOrder();
    RowsCollected(s, subject, ids);
    SortAscends(Newer, RowsFor(s, subject, ids));
  }

  lemma LinkedHasRow(s: Store, subject: Subject, u: string)
    requires u in s.links && u in s.projections && HasLink(s.links[u], subject)
    ensures RowFor(s, subject, u).Some?
  {
  }

  lemma ListingGrows(s: Store, s': Store, subject: Subject)
    requires HistoryOk(s) && HistoryOk(s') && Grows(s, s')
    ensures forall row :: row in Listing(s, subject) ==> row in Listing(s', subject)
  {
    hide Listing, HistoryOk;
    ListingIsExact(s, subject);
    ListingIsExact(s', subject);
    forall row | row in Listing(s, subject) ensures row in Listing(s', subject) {
      var u := row.projection.uttId;
      assert HasLink(s'.links[u], subject) by { hide Grows; LinkedRow(s, s', u, row); }
    }
  }

  lemma LinkedRow(s: Store, s': Store, u: string, row: Row)
    requires HistoryOk(s) && Grows(s, s') && u in s.links && row.link in s.links[u]
    ensures u in s'.links && HasLink(s'.links[u], row.link.subject)
  {
    var i :| 0 <= i < |s.links[u]| && s.links[u][i] == row.link;
  }
}
