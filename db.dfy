/**
 * The document store the services share, as three collections keyed by id.
 * Proposal ids are handed out in creation order by a counter.
 */
module Db {
  import opened Wrappers
  import opened Model

  ghost predicate ReferencedIn(proposals: map<ProposalId, Proposal>, rfps: map<RfpId, Rfp>,
                               vendors: map<VendorId, Vendor>, next: nat) {
    && (forall p :: p in proposals ==> p < next)
    && (forall r, p :: r in rfps && p in rfps[r].proposals ==> p in proposals && proposals[p].rfpId == r)
    && (forall v, p :: v in vendors && p in vendors[v].previousProposals ==> p in proposals && proposals[p].vendorId == v)
  }

  /** No id occurs twice in the list. */
  ghost predicate Distinct(s: seq<ProposalId>) {
    forall i, j :: 0 <= i < j < |s| ==> s[i] != s[j]
  }

  /** In a list without repeats, an id that is listed is listed exactly once. */
  lemma {:induction false} OnceInDistinct(s: seq<ProposalId>, x: ProposalId)
    requires Distinct(s) && x in s
    ensures multiset(s)[x] == 1
  {
    var k := |s| - 1;
    assert s == s[..k] + [s[k]];
    if s[k] == x {
      assert x !in s[..k];
    } else {
      assert x in s[..k];
      OnceInDistinct(s[..k], x);
    }
  }

  /** Appending an id that is not listed yet keeps the list free of repeats. */
  lemma DistinctSnoc(s: seq<ProposalId>, x: ProposalId)
    requires Distinct(s) && x !in s
    ensures Distinct(s + [x])
  {
  }

  /**
   * Every stored proposal belongs to a stored RFP and a stored vendor, and no
   * RFP's or vendor's list repeats an id.
   */
  ghost predicate ListedIn(proposals: map<ProposalId, Proposal>, rfps: map<RfpId, Rfp>, vendors: map<VendorId, Vendor>) {
    && (forall p :: p in proposals ==> proposals[p].rfpId in rfps && proposals[p].vendorId in vendors)
    && (forall r, i, j :: r in rfps && 0 <= i < j < |rfps[r].proposals| ==>
          rfps[r].proposals[i] != rfps[r].proposals[j])
    && (forall v, i, j :: v in vendors && 0 <= i < j < |vendors[v].previousProposals| ==>
          vendors[v].previousProposals[i] != vendors[v].previousProposals[j])
  }

  /** Every stored proposal is listed on its RFP and on its vendor. */
  ghost predicate CompleteIn(proposals: map<ProposalId, Proposal>, rfps: map<RfpId, Rfp>, vendors: map<VendorId, Vendor>) {
    forall p :: p in proposals ==>
      && (proposals[p].rfpId in rfps ==> p in rfps[proposals[p].rfpId].proposals)
      && (proposals[p].vendorId in vendors ==> p in vendors[proposals[p].vendorId].previousProposals)
  }

  function PairOf(p: Proposal): (RfpId, VendorId) {
    (p.rfpId, p.vendorId)
  }

  function PairsOf(proposals: map<ProposalId, Proposal>): set<(RfpId, VendorId)> {
    set p | p in proposals :: PairOf(proposals[p])
  }

  ghost predicate UniquePairsOf(proposals: map<ProposalId, Proposal>) {
    forall p, q :: p in proposals && q in proposals && p != q ==> PairOf(proposals[p]) != PairOf(proposals[q])
  }

  /** Adding a proposal for a pair that has none keeps the pairs unique. */
  lemma UniqueAfterInsert(proposals: map<ProposalId, Proposal>, id: ProposalId, p: Proposal)
    requires UniquePairsOf(proposals) && id !in proposals && PairOf(p) !in PairsOf(proposals)
    ensures UniquePairsOf(proposals[id := p])
    ensures PairsOf(proposals[id := p]) == PairsOf(proposals) + {PairOf(p)}
  {
    var m := proposals[id := p];
    forall q | q in proposals
      ensures PairOf(m[q]) != PairOf(p)
    {
      assert PairOf(proposals[q]) in PairsOf(proposals);
    }
    forall x | x in PairsOf(m)
      ensures x in PairsOf(proposals) + {PairOf(p)}
    {
      var q :| q in m && PairOf(m[q]) == x;
      if q != id {
        assert PairOf(proposals[q]) in PairsOf(proposals);
      }
    }
    forall x | x in PairsOf(proposals) + {PairOf(p)}
      ensures x in PairsOf(m)
    {
      if x == PairOf(p) {
        assert PairOf(m[id]) in PairsOf(m);
      } else {
        var q :| q in proposals && PairOf(proposals[q]) == x;
        assert PairOf(m[q]) in PairsOf(m);
      }
    }
  }

  /** The contents of the store at one moment: its three collections and the proposal id counter. */
  datatype Store = Store(rfps: map<RfpId, Rfp>, vendors: map<VendorId, Vendor>,
                         proposals: map<ProposalId, Proposal>, next: nat)

  class Database {
    var rfps: map<RfpId, Rfp>
    var vendors: map<VendorId, Vendor>
    var proposals: map<ProposalId, Proposal>
    var nextProposalId: nat

    /**
     * Every proposal id is below the counter, and every proposal id listed on an
     * RFP or a vendor names a stored proposal that belongs to that RFP or vendor.
     */
    ghost predicate Referenced()
      reads this
    {
      ReferencedIn(proposals, rfps, vendors, nextProposalId)
    }

    /** Every stored proposal has its RFP and vendor, and no list repeats an id. */
    ghost predicate Listed()
      reads this
    {
      ListedIn(proposals, rfps, vendors)
    }

    /**
     * Every stored proposal is listed on its RFP and on its vendor; with Listed,
     * each is listed there exactly once.
     */
    ghost predicate Complete()
      reads this
    {
      CompleteIn(proposals, rfps, vendors)
    }

    ghost predicate Valid()
      reads this
    {
      Referenced() && Listed()
    }

    /** Everything the store holds. */
    function State(): Store
      reads this
    {
      Store(rfps, vendors, proposals, nextProposalId)
    }

    /** The (RFP, vendor) pairs that already have a proposal. */
    function Pairs(): set<(RfpId, VendorId)>
      reads this
    {
      PairsOf(proposals)
    }

    /** At most one proposal per (RFP, vendor) pair. */
    ghost predicate UniquePairs()
      reads this
    {
      UniquePairsOf(proposals)
    }

    /** A store holding the seeded vendors, which have no proposal history yet. */
    constructor (seed: map<VendorId, Vendor>)
      requires forall v :: v in seed ==> seed[v].previousProposals == []
      ensures Valid() && Complete() && UniquePairs()
      ensures rfps == map[] && vendors == seed && proposals == map[] && nextProposalId == 0
    {
      rfps, vendors, proposals, nextProposalId := map[], seed, map[], 0;
    }

    /** Vendor.findOne({ email }): some vendor with exactly that email, if any. */
    method FindVendorByEmail(email: string) returns (r: Option<VendorId>)
      ensures r.Some? ==> r.value in vendors && vendors[r.value].email == email
      ensures r.None? ==> forall v :: v in vendors ==> vendors[v].email != email
    {
      if v :| v in vendors && vendors[v].email == email {
        r := Some(v);
      } else {
        r := None;
      }
    }

    /** Saving a new proposal document: it gets the next id. */
    method InsertProposal(p: Proposal) returns (id: ProposalId)
      requires Referenced()
      modifies this
      ensures Referenced()
      ensures id == old(nextProposalId) && id !in old(proposals) && nextProposalId == id + 1
      ensures proposals == old(proposals)[id := p]
      ensures rfps == old(rfps) && vendors == old(vendors)
    {
      id := nextProposalId;
      proposals := proposals[id := p];
      nextProposalId := nextProposalId + 1;
    }
  }
}
