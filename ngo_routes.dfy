/**
 * The NGO route handlers over the `campaigns`, `ngos` and `blood_banks`
 * tables. The tables are the fields of one store object; each handler is a
 * method that checks its request, changes the rows it is allowed to change,
 * and returns the HTTP status it answers with. The caller's NGO id is the
 * identity the authentication middleware established.
 */
module NgoRoutes {
  import opened Wrappers
  import opened NgoTables
  import Sets

  const Ok: int := 200
  const Created: int := 201
  const BadRequest: int := 400
  const NotFound: int := 404
  const ServerError: int := 500

  /** The body of GET /stats. */
  datatype Stats = Stats(
    activeCampaigns: nat,
    totalCampaigns: nat,
    volunteerCount: Option<int>,
    campaignsCount: int,
    bloodRequestsAccepted: int)

  /** `value || 0` on a nullable integer column. */
  function OrZero(x: Option<int>): (r: int)
    ensures x.None? ==> r == 0
    ensures x.Some? ==> r == x.value
  {
    if x.Some? && x.value != 0 then x.value else 0
  }

  class NgoStore {
    var campaigns: map<int, Campaign>
    var ngos: map<int, Ngo>
    var bloodBanks: map<int, Bank>
    /** The next value of the campaigns id sequence. */
    var nextCampaignId: int

    /** Every stored campaign id was handed out by the sequence. */
    ghost predicate Valid()
      reads this
    {
      forall id :: id in campaigns ==> id < nextCampaignId
    }

    constructor (ngos: map<int, Ngo>, bloodBanks: map<int, Bank>)
      ensures Valid()
      ensures this.campaigns == map[] && this.ngos == ngos && this.bloodBanks == bloodBanks
    {
      this.campaigns := map[];
      this.ngos := ngos;
      this.bloodBanks := bloodBanks;
      this.nextCampaignId := 1;
    }

    // -------------------------------------------------------------------------
    // Profile
    // -------------------------------------------------------------------------

    /**
     * PUT /profile. The caller's row follows the COALESCE rule and no other row
     * changes; the updated row comes back as its RETURNING columns. The handler
     * answers 200 even when the caller has no row.
     */
    method UpdateProfile(ngoId: int, patch: ProfilePatch) returns (status: int, updated: Option<ProfileView>)
      modifies this`ngos
      ensures status == Ok
      ensures ngos.Keys == old(ngos).Keys
      ensures ngoId in old(ngos) ==>
        ngos == old(ngos)[ngoId := PatchProfile(old(ngos)[ngoId], patch)] && updated == Some(View(ngoId, ngos[ngoId]))
      ensures ngoId !in old(ngos) ==> ngos == old(ngos) && updated == None
    {
      status := Ok;
      if ngoId in ngos {
        ngos := ngos[ngoId := PatchProfile(ngos[ngoId], patch)];
        updated := Some(View(ngoId, ngos[ngoId]));
      } else {
        updated := None;
      }
    }

    /**
     * PUT /change-password. `matches` is bcrypt.compare and `digest` is what
     * bcrypt.hash produced for the new password on this call. A wrong current
     * password answers 400 and keeps the stored digest. A missing row or a
     * missing password argument makes the handler throw: 500, nothing changes.
     */
    method ChangePassword(ngoId: int, currentPassword: Option<string>, newPassword: Option<string>,
                          matches: (string, string) -> bool, digest: string) returns (status: int)
      modifies this`ngos
      ensures ngoId !in old(ngos) || currentPassword.None? ==> status == ServerError
      ensures ngoId in old(ngos) && currentPassword.Some? ==>
        status == (if !matches(currentPassword.value, old(ngos)[ngoId].password) then BadRequest
                   else if newPassword.None? then ServerError
                   else Ok)
      ensures status == Ok ==> ngos == old(ngos)[ngoId := old(ngos)[ngoId].(password := digest)]
      ensures status != Ok ==> ngos == old(ngos)
    {
      if ngoId !in ngos || currentPassword.None? {
        return ServerError;
      }
      if !matches(currentPassword.value, ngos[ngoId].password) {
        return BadRequest;
      }
      if newPassword.None? {
        return ServerError;
      }
      ngos := ngos[ngoId := ngos[ngoId].(password := digest)];
      status := Ok;
    }

    /**
     * GET /stats: the caller's active and total campaign counts and the
     * counters of its row (NULL counters read as 0). A missing row makes the
     * handler throw: 500.
     */
    method GetStats(ngoId: int) returns (status: int, stats: Option<Stats>)
      ensures ngoId !in ngos ==> status == ServerError && stats == None
      ensures ngoId in ngos ==> status == Ok && stats.Some?
      ensures stats.Some? ==>
        && stats.value.activeCampaigns == |ActiveIds(campaigns, ngoId)|
        && stats.value.totalCampaigns == |OwnedIds(campaigns, ngoId)|
        && stats.value.activeCampaigns <= stats.value.totalCampaigns
        && stats.value.volunteerCount == ngos[ngoId].volunteerCount
        && stats.value.campaignsCount == OrZero(ngos[ngoId].campaignsCount)
        && stats.value.bloodRequestsAccepted == OrZero(ngos[ngoId].bloodRequestsAccepted)
    {
      var active := |ActiveIds(campaigns, ngoId)|;
      var total := |OwnedIds(campaigns, ngoId)|;
      if ngoId !in ngos {
        return ServerError, None;
      }
      ActiveAtMostTotal(campaigns, ngoId);
      var row := ngos[ngoId];
      status := Ok;
      stats := Some(Stats(active, total, row.volunteerCount,
                          OrZero(row.campaignsCount), OrZero(row.bloodRequestsAccepted)));
    }

    // -------------------------------------------------------------------------
    // Campaigns
    // -------------------------------------------------------------------------

    /**
     * POST /campaigns. A falsy address, latitude or longitude answers 400 and
     * changes nothing. Otherwise one 'active' campaign owned by the caller is
     * inserted under a fresh id, the caller's campaigns_count goes up by one,
     * and each partner bank found is invited; `emailsSent` counts the banks
     * with an email whose send did not throw (`failedSends` are the ids whose
     * send throws). A failed send never stops the creation.
     */
    method CreateCampaign(ngoId: int, req: CampaignRequest, failedSends: set<int>)
      returns (status: int, created: Option<int>, emailsSent: nat)
      requires Valid()
      modifies this`campaigns, this`ngos, this`nextCampaignId
      ensures Valid()
      ensures !CreateAccepted(req) ==>
        && status == BadRequest && created == None && emailsSent == 0
        && campaigns == old(campaigns) && ngos == old(ngos)
      ensures CreateAccepted(req) ==>
        && status == Created
        && created == Some(old(nextCampaignId)) && old(nextCampaignId) !in old(campaigns)
        && campaigns == old(campaigns)[old(nextCampaignId) := NewCampaign(ngoId, req)]
        && ngos == BumpCampaignsCount(old(ngos), ngoId)
        && |OwnedIds(campaigns, ngoId)| == |OwnedIds(old(campaigns), ngoId)| + 1
        && |ActiveIds(campaigns, ngoId)| == |ActiveIds(old(campaigns), ngoId)| + 1
      ensures emailsSent ==
        if CreateAccepted(req) && HasPartners(req.partnerBankIds)
        then |Invited(bloodBanks, FoundBanks(bloodBanks, req.partnerBankIds.value), failedSends, ngoId in old(ngos))|
        else 0
      ensures CreateAccepted(req) && HasPartners(req.partnerBankIds) ==>
        emailsSent <= |FoundBanks(bloodBanks, req.partnerBankIds.value)|
    {
      if !TruthyText(req.address) {
        return BadRequest, None, 0;
      }
      if !TruthyNumber(req.latitude) || !TruthyNumber(req.longitude) {
        return BadRequest, None, 0;
      }

      var id := nextCampaignId;
      var row := NewCampaign(ngoId, req);
      InsertCounts(campaigns, id, row, ngoId);
      campaigns := campaigns[id := row];
      nextCampaignId := nextCampaignId + 1;
      ngos := BumpCampaignsCount(ngos, ngoId);
      status, created := Created, Some(id);

      emailsSent := 0;
      if HasPartners(req.partnerBankIds) {
        emailsSent := SendInvitations(ngoId, req.partnerBankIds.value, failedSends);
      }
    }

    /**
     * The invitation loop of POST /campaigns: one email per partner bank row
     * found that has an email address. `failedSends` are the banks whose send
     * throws; the count is of the sends that did not, and the loop never stops
     * early.
     */
    method SendInvitations(ngoId: int, partnerBankIds: seq<int>, failedSends: set<int>) returns (emailsSent: nat)
      ensures emailsSent == |Invited(bloodBanks, FoundBanks(bloodBanks, partnerBankIds), failedSends, ngoId in ngos)|
      ensures emailsSent <= |FoundBanks(bloodBanks, partnerBankIds)|
    {
      var senderKnown := ngoId in ngos;
      var found := FoundBanks(bloodBanks, partnerBankIds);
      var pending := found;
      ghost var done: set<int> := {};
      emailsSent := 0;
      while pending != {}
        invariant pending <= found && done == found - pending
        invariant emailsSent == |Invited(bloodBanks, done, failedSends, senderKnown)|
        decreases pending
      {
        Sets.NonEmptyHasElement(pending);
        var b :| b in pending;
        InvitedStep(bloodBanks, done, b, failedSends, senderKnown);
        if HasEmail(bloodBanks[b]) && b !in failedSends && senderKnown {
          emailsSent := emailsSent + 1;
        }
        pending := pending - {b};
        done := done + {b};
      }
      InvitedAtMostFound(bloodBanks, found, failedSends, senderKnown);
    }

    /**
     * PUT /campaigns/:id. A campaign the caller does not own (or that does not
     * exist) answers 404 and changes nothing; otherwise that row alone follows
     * the COALESCE rule, so no NGO's set of campaigns changes.
     */
    method UpdateCampaign(ngoId: int, id: int, patch: CampaignPatch) returns (status: int, updated: Option<Campaign>)
      requires Valid()
      modifies this`campaigns
      ensures Valid()
      ensures status == (if Owns(old(campaigns), ngoId, id) then Ok else NotFound)
      ensures status == NotFound ==> campaigns == old(campaigns) && updated == None
      ensures status == Ok ==>
        campaigns == old(campaigns)[id := PatchCampaign(old(campaigns)[id], patch)] && updated == Some(campaigns[id])
      ensures forall n :: OwnedIds(campaigns, n) == OwnedIds(old(campaigns), n)
    {
      if !Owns(campaigns, ngoId, id) {
        return NotFound, None;
      }
      var row := PatchCampaign(campaigns[id], patch);
      forall n ensures OwnedIds(campaigns[id := row], n) == OwnedIds(campaigns, n) {
        ReplaceKeepsOwnership(campaigns, id, row, n);
      }
      campaigns := campaigns[id := row];
      status, updated := Ok, Some(row);
    }

    /**
     * PUT /campaigns/:id/end. 400 when the units are missing or negative (0 is
     * accepted), 404 when the caller does not own the campaign, 400 when it has
     * already ended; otherwise that row alone becomes 'ended' with the units
     * recorded, which takes it out of the caller's active count.
     */
    method EndCampaign(ngoId: int, id: int, units: Option<int>) returns (status: int)
      requires Valid()
      modifies this`campaigns
      ensures Valid()
      ensures units.None? || units.value < 0 ==> status == BadRequest
      ensures units.Some? && units.value >= 0 && !Owns(old(campaigns), ngoId, id) ==> status == NotFound
      ensures units.Some? && units.value >= 0 && Owns(old(campaigns), ngoId, id) ==>
        status == (if old(campaigns)[id].status == Some(Ended) then BadRequest else Ok)
      ensures status != Ok ==> campaigns == old(campaigns)
      ensures status == Ok ==>
        && campaigns == old(campaigns)[id := old(campaigns)[id].(status := Some(Ended), bloodUnitsCollected := units)]
        && OwnedIds(campaigns, ngoId) == OwnedIds(old(campaigns), ngoId)
        && ActiveIds(campaigns, ngoId) == ActiveIds(old(campaigns), ngoId) - {id}
    {
      if units.None? {
        return BadRequest;
      }
      if units.value < 0 {
        return BadRequest;
      }
      if !Owns(campaigns, ngoId, id) {
        return NotFound;
      }
      if campaigns[id].status == Some(Ended) {
        return BadRequest;
      }
      var row := campaigns[id].(status := Some(Ended), bloodUnitsCollected := units);
      ReplaceKeepsOwnership(campaigns, id, row, ngoId);
      EndDropsActive(campaigns, id, row, ngoId);
      campaigns := campaigns[id := row];
      status := Ok;
    }

    /**
     * DELETE /campaigns/:id. Only a row whose id and owner both match is
     * removed, which lowers the caller's total by one; otherwise 404 and the
     * table is unchanged. campaigns_count is not decremented.
     */
    method DeleteCampaign(ngoId: int, id: int) returns (status: int)
      requires Valid()
      modifies this`campaigns
      ensures Valid()
      ensures status == (if Owns(old(campaigns), ngoId, id) then Ok else NotFound)
      ensures status == NotFound ==> campaigns == old(campaigns)
      ensures status == Ok ==>
        && campaigns == old(campaigns) - {id}
        && |OwnedIds(campaigns, ngoId)| == |OwnedIds(old(campaigns), ngoId)| - 1
    {
      if !Owns(campaigns, ngoId, id) {
        return NotFound;
      }
      RemoveCounts(campaigns, id, ngoId);
      campaigns := campaigns - {id};
      status := Ok;
    }
  }
}
