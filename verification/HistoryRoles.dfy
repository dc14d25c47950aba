/** Who is linked to a transaction in which role, and who may read it, written out on the
    signed transaction and on the reader's own identifiers. */
module HistoryRoles {
  import opened Prelude
  import opened History
  import opened HistoryTheorems
  import HistoryAccess

  // ------------------------------------------------------------------ roles

  /** A party of the transaction, as the subject it is known by: an identity by its prefix,
      otherwise by its type. */
  ghost predicate KnownAs(actor: Actor, subject: Subject) {
    && subject.id == Upper(actor.actorId)
    && if "CUID-" <= subject.id then subject.kind == ContinuityUid
       else match subject.kind
         case ContinuityUid => false
         case MerchantId => Upper(actor.actorType) == "MERCHANT"
         case BranchId => Upper(actor.actorType) == "BRANCH"
         case PartnerId => Upper(actor.actorType) == "PARTNER"
  }

  ghost predicate IsOrigin(subject: Subject, kind: SubjectKind, id: Option<string>) {
    id.Some? && subject == Subject(kind, Upper(Strip(id.value)))
  }

  /** The role a subject plays in a transaction. */
  ghost predicate Plays(u: Utt, subject: Subject, role: Role) {
    match role
    case Authorizer => !u.personal && IsOrigin(subject, ContinuityUid, u.continuityUid)
    case OriginMerchant => IsOrigin(subject, MerchantId, u.merchant)
    case OriginBranch => IsOrigin(subject, BranchId, u.branch)
    case OriginPartner => IsOrigin(subject, PartnerId, u.partner)
    case Payer => KnownAs(u.payer, subject) || (u.personal && IsOrigin(subject, ContinuityUid, u.continuityUid))
    case Beneficiary => KnownAs(u.beneficiary, subject)
  }

  ghost predicate Has(m: RoleMap, subject: Subject, role: Role) { subject in m && role in m[subject] }

  lemma OptionalAdds(m: RoleMap, kind: SubjectKind, id: Option<string>, role: Role, s: Subject, r: Role)
    ensures Has(AddOptional(m, kind, id, role), s, r) <==> Has(m, s, r) || (r == role && IsOrigin(s, kind, id))
  {
    hide Upper, Strip;
  }

  lemma ActorAdds(m: RoleMap, actor: Actor, role: Role, s: Subject, r: Role)
    ensures Has(AddActor(m, actor, role), s, r) <==> Has(m, s, r) || (r == role && KnownAs(actor, s))
  {
    hide Upper;
    assert |"MERCHANT"| == 8 && |"BRANCH"| == 6 && |"PARTNER"| == 7;
  }

  /** The indexer gives each subject exactly the roles it plays. */
  lemma RolesExactly(u: Utt, s: Subject, r: Role)
    ensures Has(RolesOf(u), s, r) <==> Plays(u, s, r)
  {
    hide AddOptional, AddActor, IsOrigin, KnownAs;
    var m0: RoleMap := map[];
    var first := if u.personal then Payer else Authorizer;
    var m1 := AddOptional(m0, ContinuityUid, u.continuityUid, first);
    var m2 := AddOptional(m1, MerchantId, u.merchant, OriginMerchant);
    var m3 := AddOptional(m2, BranchId, u.branch, OriginBranch);
    var m4 := AddOptional(m3, PartnerId, u.partner, OriginPartner);
    OptionalAdds(m0, ContinuityUid, u.continuityUid, first, s, r);
    OptionalAdds(m1, MerchantId, u.merchant, OriginMerchant, s, r);
    OptionalAdds(m2, BranchId, u.branch, OriginBranch, s, r);
    OptionalAdds(m3, PartnerId, u.partner, OriginPartner, s, r);
    ActorAdds(m4, u.payer, Payer, s, r);
    ActorAdds(AddActor(m4, u.payer, Payer), u.beneficiary, Beneficiary, s, r);
  }

  // ------------------------------------------------------- what is stored

  /** A stored row tells its transaction and its subject's roles, each once. */
  ghost predicate Tells(u: Utt, uttId: string, p: Projection, links: seq<Link>) {
    && p.uttId == uttId && p.payloadSha == u.payloadSha && p.details == u.details && p.acceptedAt == u.acceptedAt
    && LinksTellAll(u, uttId, links)
  }

  ghost predicate LinksTellAll(u: Utt, uttId: string, links: seq<Link>) {
    && (forall i :: 0 <= i < |links| ==> links[i].uttId == uttId && LinkTells(u, links[i]))
    && (forall s, r :: Plays(u, s, r) ==> HasLink(links, s))
  }

  ghost predicate LinkTells(u: Utt, link: Link) {
    && (forall role :: role in link.roles <==> Plays(u, link.subject, role))
    && Alphabetical(link.roles)
  }

  /** The place of a role's name in the alphabet. */
  function RoleName(r: Role): int {
    match r
    case Authorizer => 0
    case Beneficiary => 1
    case OriginBranch => 2
    case OriginMerchant => 3
    case OriginPartner => 4
    case Payer => 5
  }

  ghost predicate Alphabetical(roles: seq<Role>) {
    forall i, j :: 0 <= i < j < |roles| ==> RoleName(roles[i]) < RoleName(roles[j])
  }

  lemma {:induction false} InOrderAscends(order: seq<Role>, roles: set<Role>)
    requires Alphabetical(order)
    ensures Alphabetical(InRoleOrder(order, roles))
  {
    if order != [] {
      var rest := order[1..];
      InOrderAscends(rest, roles);
      var tail, r := InRoleOrder(rest, roles), InRoleOrder(order, roles);
      forall i, j | 0 <= i < j < |r| ensures RoleName(r[i]) < RoleName(r[j]) {
        if order[0] in roles {
          assert r == [order[0]] + tail;
          assert r[j] == tail[j - 1] && tail[j - 1] in rest;
          if i > 0 { assert r[i] == tail[i - 1]; }
        } else {
          assert r == tail;
        }
      }
    }
  }

  lemma SortedRolesAscend(roles: set<Role>)
    ensures Alphabetical(SortedRoles(roles))
  {
    InOrderAscends(ROLE_ORDER, roles);
  }

  lemma {:induction false} LinksTell(u: Utt, uttId: string, at: int)
    ensures LinksTellAll(u, uttId, LinksOf(uttId, RolesOf(u), at))
  {
    hide RolesOf, LinkBefore, SortedRoles, Sort, HasLink, Plays, LinkEach;
    var m := RolesOf(u);
    RolesAreGiven(u);
    LinksAreAggregated(uttId, m, at);
    forall s, r ensures Has(m, s, r) <==> Plays(u, s, r) { RolesExactly(u, s, r); }
    var raw, links := LinkEach(uttId, m, Arranged(m.Keys), at), LinksOf(uttId, m, at);
    forall i | 0 <= i < |links| ensures LinkTells(u, links[i]) {
      assert links[i] in raw;
      EachMembers(uttId, m, Arranged(m.Keys), at, links[i]);
      SortedRolesKeep(m[links[i].subject]);
      SortedRolesAscend(m[links[i].subject]);
    }
  }

  ghost predicate TellsOf(utts: map<string, Utt>, s: Store, u: string) {
    u in s.projections ==>
      u in s.links && Strip(u) in utts && Tells(utts[Strip(u)], u, s.projections[u], s.links[u])
  }

  lemma StepTells(utts: map<string, Utt>, s: Store, c: Call)
    requires c.sources.utts == utts && forall u :: TellsOf(utts, s, u)
    ensures forall u :: TellsOf(utts, Indexed(s, c), u)
  {
    hide LinksOf, RolesOf, SubjectProblem, HasLink, AddLinks, Strip, Aggregated, LinkTells, Plays;
    var s' := Indexed(s, c);
    if s' != s {
      LinksTell(utts[Strip(c.uttId)], c.uttId, c.at);
      forall u ensures TellsOf(utts, s', u) { assert TellsOf(utts, s, u); }
    }
  }

  lemma {:induction false} RunTells(utts: map<string, Utt>, s: Store, calls: seq<Call>)
    requires HistoryAccess.OneSource(utts, calls) && forall u :: TellsOf(utts, s, u)
    ensures forall u :: TellsOf(utts, Run(s, calls), u)
    decreases |calls|
  {
    hide Indexed, TellsOf;
    if calls != [] {
      StepTells(utts, s, calls[0]);
      RunTells(utts, Indexed(s, calls[0]), calls[1..]);
    }
  }

  /** After any index calls that look transactions up in one contract store: what is stored
      is the transaction's own hash, details and acceptance, and its links give each subject
      exactly the roles it plays in the transaction, each once, in alphabetical order. */
  lemma {:induction false} EveryLinkTellsItsRoles(utts: map<string, Utt>, calls: seq<Call>, u: string)
    requires HistoryAccess.OneSource(utts, calls) && u in Run(EMPTY_HISTORY, calls).projections
    ensures var s := Run(EMPTY_HISTORY, calls);
            u in s.links && Strip(u) in utts && Tells(utts[Strip(u)], u, s.projections[u], s.links[u])
  {
    hide Run, Tells;
    assert forall v :: TellsOf(utts, EMPTY_HISTORY, v);
    RunTells(utts, EMPTY_HISTORY, calls);
    assert TellsOf(utts, Run(EMPTY_HISTORY, calls), u);
  }

  // ------------------------------------------------------------ who may read

  /** The reader holds this identifier, whatever its case. */
  ghost predicate HoldsId(ids: seq<string>, id: string) { exists i :: 0 <= i < |ids| && Upper(ids[i]) == Upper(id) }

  /** The reader is privileged, or the subject is one of the reader's own of its kind. */
  ghost predicate MaySee(a: Access, subject: Subject) {
    || a.privileged
    || (subject.kind == ContinuityUid && a.continuityUid.Some? && Upper(a.continuityUid.value) == Upper(subject.id))
    || (subject.kind == ContinuityUid && a.continuityUid.None? && subject.id == "")
    || (subject.kind == MerchantId && HoldsId(a.merchants, subject.id))
    || (subject.kind == BranchId && HoldsId(a.branches, subject.id))
    || (subject.kind == PartnerId && HoldsId(a.partners, subject.id))
  }

  lemma AccessIs(a: Access, subject: Subject)
    ensures CanAccess(subject, a) <==> MaySee(a, subject)
  {
    assert |Upper(subject.id)| == |subject.id| && Upper("") == "";
  }

  ghost predicate NoReason(a: Access) { a.privileged && (a.reason == None || Strip(a.reason.value) == "") }

  ghost predicate Sees(a: Access, links: seq<Link>, role: Role) {
    exists i :: 0 <= i < |links| && MaySee(a, links[i].subject) && role in links[i].roles
  }

  lemma {:induction false} MatchedExactly(links: seq<Link>, a: Access, role: Role)
    ensures role in MatchedRoles(links, a) <==> Sees(a, links, role)
  {
    hide CanAccess, MaySee;
    if links != [] {
      AccessIs(a, links[0].subject);
      MatchedExactly(links[1..], a, role);
      var rest := links[1..];
      if i :| 0 <= i < |rest| && MaySee(a, rest[i].subject) && role in rest[i].roles { assert links[i + 1] == rest[i]; }
      if i :| 0 <= i < |links| && MaySee(a, links[i].subject) && role in links[i].roles {
        assert i > 0 ==> rest[i - 1] == links[i];
      }
    }
  }

  /** get_by_utt after any index calls, in every branch: a blank identifier, one that is not
      stored and a privileged reader without a reason are refused; otherwise the transaction
      is shown exactly to a privileged reader and to one who holds a linked subject, with
      exactly the roles of the links the reader may see, and to nobody else. */
  lemma {:induction false} GetExactly(calls: seq<Call>, uttId: string, a: Access)
    ensures var s := Run(EMPTY_HISTORY, calls);
            var id := Strip(uttId);
            var r := GetByUtt(s, uttId, a);
            if id == "" then r == Err(TextRequired)
            else if id !in s.projections then r == Err(ProjectionNotFound)
            else if NoReason(a) then r == Err(ReasonRequired)
            else
              && id in s.links
              && (r.Ok? <==> a.privileged || exists i :: 0 <= i < |s.links[id]| && MaySee(a, s.links[id][i].subject))
              && (r.Err? ==> r == Err(AccessDenied))
              && (r.Ok? ==> && r.value.transaction == s.projections[id]
                            && (forall role :: role in r.value.roles <==> Sees(a, s.links[id], role)))
  {
    hide Run, Strip, MaySee, SortedRoles, IndexAgrees;
    var s, id := Run(EMPTY_HISTORY, calls), Strip(uttId);
    EmptyIsOk();
    RunKeepsOk(EMPTY_HISTORY, calls);
    if id in s.projections {
      var links := s.links[id];
      assert LinksOk(id, links);
      var matched := MatchedRoles(links, a);
      forall role ensures role in matched <==> Sees(a, links, role) { MatchedExactly(links, a, role); }
      SortedRolesKeep(matched);
      if matched == {} {
        forall i | 0 <= i < |links| ensures !MaySee(a, links[i].subject) {
          assert links[i].roles[0] in links[i].roles;
          assert !Sees(a, links, links[i].roles[0]);
        }
      } else {
        var role :| role in matched;
        assert Sees(a, links, role);
      }
    }
  }

  /** list_by_subject refuses a blank subject, a limit outside 1 to 100, a privileged reader
      without a reason and a reader who may not see the subject, in this order, and then a
      cursor that cannot be read; otherwise the page is the first rows, at most as many as
      asked for, of the subject's listing, from the cursor on. */
  lemma {:induction false} ListExactly(s: Store, subject: Subject, a: Access, limit: int, cursor: Option<string>)
    ensures var r := ListBySubject(s, subject, a, limit, cursor);
            var plain := Subject(subject.kind, Upper(Strip(subject.id)));
            if Strip(subject.id) == "" then r == Err(TextRequired)
            else if limit < 1 || 100 < limit then r == Err(LimitOutOfRange)
            else if NoReason(a) then r == Err(ReasonRequired)
            else if !MaySee(a, plain) then r == Err(AccessDenied)
            else if cursor.Some? && DecodeCursor(cursor.value) == None then r == Err(InvalidCursor)
            else
              && r.Ok? && |r.value.rows| <= limit
              && var all := if cursor.None? then Listing(s, plain)
                            else OlderThan(Listing(s, plain), DecodeCursor(cursor.value).value);
                 && r.value.rows <= all && (|all| <= limit ==> r.value == Page(all, None))
                 && (limit < |all| ==> && |r.value.rows| == limit && r.value.next.Some?
                                       && r.value.next.value == EncodeCursor(Key(all[limit - 1].projection.acceptedAt,
                                                                                 all[limit - 1].projection.uttId)))
  {
    hide Listing, Strip, Upper, CanAccess, MaySee, DecodeCursor, EncodeCursor, OlderThan;
    AccessIs(a, Subject(subject.kind, Upper(Strip(subject.id))));
  }

  // --------------------------------------------------------- what is indexed

  ghost predicate Blanks(t: Option<string>) { t.Some? && Strip(t.value) == "" }

  /** A party that carries an identity is one the identity repository knows. */
  ghost predicate Known(id: string, identities: set<string>) {
    "CUID-" <= Upper(id) ==> Upper(Strip(id)) in identities
  }

  /** The transaction has at least one subject. */
  ghost predicate Concerns(u: Utt) { exists subject, role :: Plays(u, subject, role) }

  ghost predicate Indexable(u: Utt, identities: set<string>) {
    && u.signatureValid && !Blanks(u.continuityUid) && !Blanks(u.merchant) && !Blanks(u.branch) && !Blanks(u.partner)
    && (u.continuityUid.Some? ==> Upper(Strip(u.continuityUid.value)) in identities)
    && Known(u.payer.actorId, identities) && Known(u.beneficiary.actorId, identities)
  }

  /** Index, as the commit of the transaction's projection and links. */
  lemma {:induction false} IndexCommits(s: Store, src: Sources, uttId: string, at: int)
    ensures Index(s, src, uttId, at).Ok? ==>
              Strip(uttId) != "" && Strip(uttId) in src.utts && Indexable(src.utts[Strip(uttId)], src.identities)
    ensures Strip(uttId) != "" && Strip(uttId) in src.utts && Indexable(src.utts[Strip(uttId)], src.identities) ==>
              var u := src.utts[Strip(uttId)];
              Index(s, src, uttId, at) == Commit(s, ProjectionOf(u, uttId, at), LinksOf(uttId, RolesOf(u), at))
  {
    hide Strip, RolesOf, LinksOf, SubjectProblem, Commit, Indexable;
    if Strip(uttId) in src.utts { SubjectsAre(src.utts[Strip(uttId)], src.identities); }
  }

  /** An index call is accepted exactly when its transaction is found and verifies, names no
      blank and no unknown party, and is stored already with the same content or has at least
      one subject. */
  lemma {:induction false} IndexAcceptsExactly(s: Store, src: Sources, uttId: string, at: int)
    ensures Index(s, src, uttId, at).Ok? <==>
              && Strip(uttId) != "" && Strip(uttId) in src.utts && Indexable(src.utts[Strip(uttId)], src.identities)
              && if uttId in s.projections then s.projections[uttId].payloadSha == src.utts[Strip(uttId)].payloadSha
                 else Concerns(src.utts[Strip(uttId)])
  {
    hide Strip, RolesOf, LinksOf, Index, Commit, Indexable, Concerns, Aggregated;
    IndexCommits(s, src, uttId, at);
    if Strip(uttId) in src.utts {
      var u := src.utts[Strip(uttId)];
      SomebodyPlays(u, uttId, at);
      OnePerSubject(u, uttId, at);
      CommitExactly(s, ProjectionOf(u, uttId, at), LinksOf(uttId, RolesOf(u), at));
    }
  }

  /** An accepted index call stores its transaction once, with what it tells; a second time
      changes nothing. */
  lemma {:induction false} IndexStoresExactly(s: Store, src: Sources, uttId: string, at: int)
    requires Index(s, src, uttId, at).Ok?
    ensures var (s', p) := Index(s, src, uttId, at).value;
            if uttId in s.projections then s' == s && p == s.projections[uttId]
            else
              && Strip(uttId) in src.utts && uttId in s'.links
              && Tells(src.utts[Strip(uttId)], uttId, p, s'.links[uttId]) && p.indexedAt == at
              && s'.projections == s.projections[uttId := p] && s'.links == s.links[uttId := s'.links[uttId]]
  {
    hide Strip, RolesOf, LinksOf, Index, Commit, Indexable, LinksTellAll, Aggregated;
    IndexCommits(s, src, uttId, at);
    var u := src.utts[Strip(uttId)];
    LinksTell(u, uttId, at);
    OnePerSubject(u, uttId, at);
    CommitExactly(s, ProjectionOf(u, uttId, at), LinksOf(uttId, RolesOf(u), at));
  }

  lemma OnePerSubject(u: Utt, uttId: string, at: int)
    ensures var links := LinksOf(uttId, RolesOf(u), at);
            Aggregated(links) && forall i :: 0 <= i < |links| ==> links[i].uttId == uttId
  {
    hide RolesOf, LinksOf, HasLink, Aggregated;
    RolesAreGiven(u);
    LinksAreAggregated(uttId, RolesOf(u), at);
  }

  lemma CommitExactly(s: Store, p: Projection, links: seq<Link>)
    requires Aggregated(links) && forall i :: 0 <= i < |links| ==> links[i].uttId == p.uttId
    ensures var r := Commit(s, p, links);
            if p.uttId in s.projections then
              && (r.Ok? <==> s.projections[p.uttId].payloadSha == p.payloadSha)
              && (r.Ok? ==> r.value == (s, s.projections[p.uttId]))
            else
              && (r.Ok? <==> links != [])
              && (r.Ok? ==> && r.value.1 == p && r.value.0.projections == s.projections[p.uttId := p]
                            && r.value.0.links == s.links[p.uttId := links])
  {
    hide Aggregated, AddLinks;
  }

  lemma SubjectsAre(u: Utt, identities: set<string>)
    ensures Indexable(u, identities) <==> u.signatureValid && SubjectProblem(u, identities) == None
  {
    hide Strip, Upper;
  }

  lemma SomebodyPlays(u: Utt, uttId: string, at: int)
    ensures LinksOf(uttId, RolesOf(u), at) != [] <==> Concerns(u)
  {
    hide RolesOf, LinksOf, Plays, LinkTells;
    var links := LinksOf(uttId, RolesOf(u), at);
    LinksTell(u, uttId, at);
    RolesAreGiven(u);
    LinksAreAggregated(uttId, RolesOf(u), at);
    if links != [] {
      var subject := links[0].subject;
      LinkAt(links, 0);
      var role :| role in RolesOf(u)[subject];
      RolesExactly(u, subject, role);
    }
    if subject, role :| Plays(u, subject, role) { NotEmpty(links, subject); }
  }
}
