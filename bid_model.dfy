/** The Bid collection's schema (models/Bid.ts). */
module BidModel {
  import opened Wrappers
  import opened Documents

  const BidStatuses: seq<string> := ["Pending", "Accepted", "Rejected"]
  const DefaultBidStatus: string := "Pending"

  datatype Bid = Bid(
    id: Id,
    projectId: Option<Id>,
    contractorId: Option<Id>,
    amount: Option<int>,
    description: Option<string>,
    status: Option<string>)

  /** The fields a request body may give a new bid. */
  datatype BidInput = BidInput(
    projectId: Option<Id>,
    contractorId: Option<Id>,
    amount: Option<int>,
    description: Option<string>,
    status: Option<string>)

  /**
   * BidSchema: projectId, contractorId and amount are required, status is one
   * of BidStatuses; description is optional.
   */
  predicate ValidBid(b: Bid) {
    && b.projectId.Some?
    && b.contractorId.Some?
    && b.amount.Some?
    && EnumOk(b.status, BidStatuses)
  }

  /** `new Bid(input)`: an absent status becomes Pending. */
  function NewBid(id: Id, input: BidInput): (r: Bid)
    ensures r.id == id && r.projectId == input.projectId && r.contractorId == input.contractorId
    ensures r.amount == input.amount && r.description == input.description
    ensures r.status == Some(if input.status.Some? then input.status.value else DefaultBidStatus)
    ensures ValidBid(r) <==>
              input.projectId.Some? && input.contractorId.Some? && input.amount.Some? &&
              EnumOk(input.status, BidStatuses)
  {
    Bid(id, input.projectId, input.contractorId, input.amount, input.description,
        Some(input.status.GetOr(DefaultBidStatus)))
  }

  /** A valid bid names its project and contractor, has an amount and a known status. */
  lemma ValidBidFields(b: Bid)
    requires ValidBid(b)
    ensures b.projectId.Some? && b.contractorId.Some? && b.amount.Some?
    ensures b.status.Some? ==> b.status.value in BidStatuses
  {
  }

  /** The description does not affect validity. */
  lemma DescriptionOptional(b: Bid, d: Option<string>)
    ensures ValidBid(b) <==> ValidBid(b.(description := d))
  {
  }
}
