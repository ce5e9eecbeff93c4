/**
 * The rows of the `campaigns`, `ngos` and `blood_banks` tables as the NGO
 * routes read and write them, and the row-level rules those routes apply:
 * COALESCE partial updates, the shape of a freshly created campaign, the
 * campaigns_count increment, the per-NGO counts behind the dashboard, and the
 * set of partner banks that receive an invitation.
 *
 * Columns whose nullability the schema does not pin down are Option values
 * (None is SQL NULL, and a JavaScript `undefined`/`null` parameter).
 */
module NgoTables {
  import opened Wrappers
  import Sets

  const Active: string := "active"
  const Ended: string := "ended"

  /** A row of `campaigns` (its `id` is the key of the table map). */
  datatype Campaign = Campaign(
    ngoId: int,
    title: Option<string>,
    address: Option<string>,
    latitude: Option<real>,
    longitude: Option<real>,
    startDate: Option<string>,
    endDate: Option<string>,
    status: Option<string>,
    healthCheckupAvailable: bool,
    bloodUnitsCollected: Option<int>)

  /** A row of `ngos` (its `id` is the key of the table map); `password` holds the bcrypt digest. */
  datatype Ngo = Ngo(
    name: Option<string>,
    ownerName: Option<string>,
    email: Option<string>,
    age: Option<int>,
    gender: Option<string>,
    address: Option<string>,
    volunteerCount: Option<int>,
    latitude: Option<real>,
    longitude: Option<real>,
    campaignsCount: Option<int>,
    bloodRequestsAccepted: Option<int>,
    password: string)

  /** A row of `blood_banks`, reduced to what the invitation loop reads. */
  datatype Bank = Bank(name: Option<string>, email: Option<string>)

  // ---------------------------------------------------------------------------
  // COALESCE partial updates
  // ---------------------------------------------------------------------------

  /** SQL COALESCE($n, column): the supplied value unless it is NULL, else the stored one. */
  function Coalesce<T>(supplied: Option<T>, stored: Option<T>): (r: Option<T>)
    ensures supplied.Some? ==> r == supplied
    ensures supplied.None? ==> r == stored
  {
    if supplied.Some? then supplied else stored
  }

  /**
   * COALESCE laws the partial updates rely on: a NULL input is no change,
   * a second identical update is no change, nesting chooses the first non-null
   * value, and a non-null stored value is never replaced by NULL.
   */
  lemma CoalesceLaws<T>(a: Option<T>, b: Option<T>, stored: Option<T>)
    ensures Coalesce(None, stored) == stored
    ensures Coalesce(a, Coalesce(a, stored)) == Coalesce(a, stored)
    ensures Coalesce(a, Coalesce(b, stored)) == Coalesce(Coalesce(a, b), stored)
    ensures stored.Some? ==> Coalesce(a, stored).Some?
  {
  }

  /** The body fields of PUT /campaigns/:id. */
  datatype CampaignPatch = CampaignPatch(
    title: Option<string>,
    address: Option<string>,
    latitude: Option<real>,
    longitude: Option<real>,
    startDate: Option<string>,
    endDate: Option<string>,
    status: Option<string>)

  /**
   * The campaign row after `UPDATE campaigns SET title = COALESCE($1, title), ...`:
   * each of the seven columns takes the supplied value when it is non-null; the
   * owner, the health-checkup flag and the collected units are never touched.
   */
  function PatchCampaign(c: Campaign, p: CampaignPatch): (r: Campaign)
    ensures r.ngoId == c.ngoId
    ensures r.healthCheckupAvailable == c.healthCheckupAvailable
    ensures r.bloodUnitsCollected == c.bloodUnitsCollected
    ensures r.title == (if p.title.Some? then p.title else c.title)
    ensures r.address == (if p.address.Some? then p.address else c.address)
    ensures r.latitude == (if p.latitude.Some? then p.latitude else c.latitude)
    ensures r.longitude == (if p.longitude.Some? then p.longitude else c.longitude)
    ensures r.startDate == (if p.startDate.Some? then p.startDate else c.startDate)
    ensures r.endDate == (if p.endDate.Some? then p.endDate else c.endDate)
    ensures r.status == (if p.status.Some? then p.status else c.status)
  {
    c.(title := Coalesce(p.title, c.title),
       address := Coalesce(p.address, c.address),
       latitude := Coalesce(p.latitude, c.latitude),
       longitude := Coalesce(p.longitude, c.longitude),
       startDate := Coalesce(p.startDate, c.startDate),
       endDate := Coalesce(p.endDate, c.endDate),
       status := Coalesce(p.status, c.status))
  }

  /** The body fields of PUT /profile. */
  datatype ProfilePatch = ProfilePatch(
    name: Option<string>,
    ownerName: Option<string>,
    age: Option<int>,
    gender: Option<string>,
    address: Option<string>,
    volunteerCount: Option<int>,
    latitude: Option<real>,
    longitude: Option<real>)

  /** The columns the profile UPDATE's RETURNING clause sends back: no password and no counters. */
  datatype ProfileView = ProfileView(
    id: int,
    name: Option<string>,
    ownerName: Option<string>,
    email: Option<string>,
    age: Option<int>,
    gender: Option<string>,
    address: Option<string>,
    volunteerCount: Option<int>,
    latitude: Option<real>,
    longitude: Option<real>)

  /** `RETURNING id, name, owner_name, email, age, gender, address, volunteer_count, latitude, longitude`. */
  function View(id: int, n: Ngo): ProfileView {
    ProfileView(id, n.name, n.ownerName, n.email, n.age, n.gender, n.address,
                n.volunteerCount, n.latitude, n.longitude)
  }

  /**
   * The NGO row after the profile UPDATE: the eight profile columns follow the
   * COALESCE rule; email, campaigns_count, blood_requests_accepted and the
   * password are never touched.
   */
  function PatchProfile(n: Ngo, p: ProfilePatch): (r: Ngo)
    ensures r.email == n.email && r.password == n.password
    ensures r.campaignsCount == n.campaignsCount && r.bloodRequestsAccepted == n.bloodRequestsAccepted
    ensures r.name == (if p.name.Some? then p.name else n.name)
    ensures r.ownerName == (if p.ownerName.Some? then p.ownerName else n.ownerName)
    ensures r.age == (if p.age.Some? then p.age else n.age)
    ensures r.gender == (if p.gender.Some? then p.gender else n.gender)
    ensures r.address == (if p.address.Some? then p.address else n.address)
    ensures r.volunteerCount == (if p.volunteerCount.Some? then p.volunteerCount else n.volunteerCount)
    ensures r.latitude == (if p.latitude.Some? then p.latitude else n.latitude)
    ensures r.longitude == (if p.longitude.Some? then p.longitude else n.longitude)
  {
    n.(name := Coalesce(p.name, n.name),
       ownerName := Coalesce(p.ownerName, n.ownerName),
       age := Coalesce(p.age, n.age),
       gender := Coalesce(p.gender, n.gender),
       address := Coalesce(p.address, n.address),
       volunteerCount := Coalesce(p.volunteerCount, n.volunteerCount),
       latitude := Coalesce(p.latitude, n.latitude),
       longitude := Coalesce(p.longitude, n.longitude))
  }

  /** A patch whose every field is null leaves the row as it was, and applying a patch twice is applying it once. */
  lemma PatchLaws(c: Campaign, p: CampaignPatch, n: Ngo, q: ProfilePatch)
    ensures PatchCampaign(c, CampaignPatch(None, None, None, None, None, None, None)) == c
    ensures PatchCampaign(PatchCampaign(c, p), p) == PatchCampaign(c, p)
    ensures PatchProfile(n, ProfilePatch(None, None, None, None, None, None, None, None)) == n
    ensures PatchProfile(PatchProfile(n, q), q) == PatchProfile(n, q)
  {
  }

  // ---------------------------------------------------------------------------
  // Create
  // ---------------------------------------------------------------------------

  /** The body fields of POST /campaigns. */
  datatype CampaignRequest = CampaignRequest(
    title: Option<string>,
    address: Option<string>,
    latitude: Option<real>,
    longitude: Option<real>,
    startDate: Option<string>,
    endDate: Option<string>,
    healthCheckupAvailable: Option<bool>,
    partnerBankIds: Option<seq<int>>)

  /** JavaScript truthiness of an optional string: present and non-empty. */
  predicate TruthyText(s: Option<string>) {
    s.Some? && s.value != ""
  }

  /** JavaScript truthiness of an optional number: present and non-zero. */
  predicate TruthyNumber(x: Option<real>) {
    x.Some? && x.value != 0.0
  }

  /** The create handler's validation: `!address` and then `!latitude || !longitude` reject with 400. */
  predicate CreateAccepted(req: CampaignRequest) {
    TruthyText(req.address) && TruthyNumber(req.latitude) && TruthyNumber(req.longitude)
  }

  /** The row the INSERT writes: owned by the caller, 'active', the checkup flag defaulting to false. */
  function NewCampaign(ngoId: int, req: CampaignRequest): (r: Campaign)
    ensures r.ngoId == ngoId && r.status == Some(Active)
    ensures r.healthCheckupAvailable <==> req.healthCheckupAvailable == Some(true)
    ensures r.bloodUnitsCollected.None?
    ensures r.title == req.title && r.address == req.address
    ensures r.latitude == req.latitude && r.longitude == req.longitude
    ensures r.startDate == req.startDate && r.endDate == req.endDate
  {
    Campaign(ngoId, req.title, req.address, req.latitude, req.longitude,
             req.startDate, req.endDate, Some(Active),
             // `health_checkup_available || false`
             if req.healthCheckupAvailable.Some? then req.healthCheckupAvailable.value else false,
             None)
  }

  /**
   * `UPDATE ngos SET campaigns_count = campaigns_count + 1 WHERE id = $1`: only
   * that row changes, and a NULL count stays NULL (NULL + 1 is NULL in SQL).
   */
  function BumpCampaignsCount(ngos: map<int, Ngo>, ngoId: int): (r: map<int, Ngo>)
    ensures r.Keys == ngos.Keys
    ensures forall id :: id in ngos && id != ngoId ==> r[id] == ngos[id]
    ensures ngoId in ngos ==>
      r[ngoId] == ngos[ngoId].(campaignsCount :=
        if ngos[ngoId].campaignsCount.Some? then Some(ngos[ngoId].campaignsCount.value + 1) else None)
  {
    if ngoId in ngos then
      var n := ngos[ngoId];
      var count := if n.campaignsCount.Some? then Some(n.campaignsCount.value + 1) else None;
      ngos[ngoId := n.(campaignsCount := count)]
    else ngos
  }

  // ---------------------------------------------------------------------------
  // Ownership and the dashboard counts
  // ---------------------------------------------------------------------------

  /** `WHERE id = $1 AND ngo_id = $2` matches a row. */
  predicate Owns(campaigns: map<int, Campaign>, ngoId: int, id: int) {
    id in campaigns && campaigns[id].ngoId == ngoId
  }

  /** `SELECT ... FROM campaigns WHERE ngo_id = $1`. */
  function OwnedIds(campaigns: map<int, Campaign>, ngoId: int): set<int> {
    set id | id in campaigns && campaigns[id].ngoId == ngoId
  }

  /** `SELECT ... FROM campaigns WHERE ngo_id = $1 AND status = 'active'`. */
  function ActiveIds(campaigns: map<int, Campaign>, ngoId: int): set<int> {
    set id | id in campaigns && campaigns[id].ngoId == ngoId && campaigns[id].status == Some(Active)
  }

  /** An NGO's active campaigns are among its campaigns, so the active count never exceeds the total. */
  lemma ActiveAtMostTotal(campaigns: map<int, Campaign>, ngoId: int)
    ensures ActiveIds(campaigns, ngoId) <= OwnedIds(campaigns, ngoId)
    ensures |ActiveIds(campaigns, ngoId)| <= |OwnedIds(campaigns, ngoId)|
  {
    Sets.SubsetCardinality(ActiveIds(campaigns, ngoId), OwnedIds(campaigns, ngoId));
  }

  /** Inserting a row under a fresh id adds one campaign, and one active campaign when it is active, to its owner only. */
  lemma InsertCounts(campaigns: map<int, Campaign>, id: int, c: Campaign, ngoId: int)
    requires id !in campaigns
    ensures OwnedIds(campaigns[id := c], ngoId)
         == if c.ngoId == ngoId then OwnedIds(campaigns, ngoId) + {id} else OwnedIds(campaigns, ngoId)
    ensures |OwnedIds(campaigns[id := c], ngoId)|
         == |OwnedIds(campaigns, ngoId)| + (if c.ngoId == ngoId then 1 else 0)
    ensures |ActiveIds(campaigns[id := c], ngoId)|
         == |ActiveIds(campaigns, ngoId)| + (if c.ngoId == ngoId && c.status == Some(Active) then 1 else 0)
  {
    InsertOwnedIds(campaigns, id, c, ngoId);
    InsertActiveIds(campaigns, id, c, ngoId);
  }

  lemma InsertOwnedIds(campaigns: map<int, Campaign>, id: int, c: Campaign, ngoId: int)
    requires id !in campaigns
    ensures id !in OwnedIds(campaigns, ngoId)
    ensures OwnedIds(campaigns[id := c], ngoId)
         == if c.ngoId == ngoId then OwnedIds(campaigns, ngoId) + {id} else OwnedIds(campaigns, ngoId)
  {
  }

  lemma InsertActiveIds(campaigns: map<int, Campaign>, id: int, c: Campaign, ngoId: int)
    requires id !in campaigns
    ensures id !in ActiveIds(campaigns, ngoId)
    ensures ActiveIds(campaigns[id := c], ngoId)
         == if c.ngoId == ngoId && c.status == Some(Active) then ActiveIds(campaigns, ngoId) + {id}
            else ActiveIds(campaigns, ngoId)
  {
  }

  /** Deleting an owned row removes exactly one campaign from its owner's total and leaves every other NGO's untouched. */
  lemma RemoveCounts(campaigns: map<int, Campaign>, id: int, ngoId: int)
    requires id in campaigns
    ensures |OwnedIds(campaigns - {id}, ngoId)|
         == |OwnedIds(campaigns, ngoId)| - (if campaigns[id].ngoId == ngoId then 1 else 0)
  {
    var m := campaigns - {id};
    if campaigns[id].ngoId == ngoId {
      assert OwnedIds(campaigns, ngoId) == OwnedIds(m, ngoId) + {id};
    } else {
      assert OwnedIds(m, ngoId) == OwnedIds(campaigns, ngoId);
    }
  }

  /** Rewriting a row without changing its owner keeps every NGO's campaign set. */
  lemma ReplaceKeepsOwnership(campaigns: map<int, Campaign>, id: int, c: Campaign, ngoId: int)
    requires id in campaigns && c.ngoId == campaigns[id].ngoId
    ensures OwnedIds(campaigns[id := c], ngoId) == OwnedIds(campaigns, ngoId)
  {
  }

  /** Marking a row 'ended' takes it out of its owner's active set and changes nothing else in the counts. */
  lemma EndDropsActive(campaigns: map<int, Campaign>, id: int, c: Campaign, ngoId: int)
    requires id in campaigns && c.ngoId == campaigns[id].ngoId && c.status == Some(Ended)
    ensures ActiveIds(campaigns[id := c], ngoId) == ActiveIds(campaigns, ngoId) - {id}
    ensures |ActiveIds(campaigns[id := c], ngoId)|
         == |ActiveIds(campaigns, ngoId)| - (if id in ActiveIds(campaigns, ngoId) then 1 else 0)
  {
  }

  // ---------------------------------------------------------------------------
  // Invitations to partner blood banks
  // ---------------------------------------------------------------------------

  /** `partner_bank_ids && partner_bank_ids.length > 0`. */
  predicate HasPartners(ids: Option<seq<int>>) {
    ids.Some? && |ids.value| > 0
  }

  /** The rows of `SELECT ... FROM blood_banks WHERE id = ANY($1::int[])`. */
  function FoundBanks(banks: map<int, Bank>, ids: seq<int>): set<int> {
    set b | b in banks && b in ids
  }

  /** `if (bank.email)`: present and non-empty. */
  predicate HasEmail(bank: Bank) {
    TruthyText(bank.email)
  }

  /**
   * Among `candidates`, the banks whose invitation counts as sent: the bank has
   * an email, the send did not throw, and the sender's NGO row exists (the
   * template reads `ngo.name`, which throws inside the same try when it does not).
   */
  function Invited(banks: map<int, Bank>, candidates: set<int>, failed: set<int>, senderKnown: bool): set<int> {
    set b | b in candidates && b in banks && HasEmail(banks[b]) && b !in failed && senderKnown
  }

  /** Looking at one more bank adds it to the invited set exactly when its invitation goes out. */
  lemma InvitedStep(banks: map<int, Bank>, done: set<int>, b: int, failed: set<int>, senderKnown: bool)
    requires b !in done
    ensures Invited(banks, done + {b}, failed, senderKnown)
         == if b in banks && HasEmail(banks[b]) && b !in failed && senderKnown
            then Invited(banks, done, failed, senderKnown) + {b}
            else Invited(banks, done, failed, senderKnown)
    ensures b !in Invited(banks, done, failed, senderKnown)
  {
  }

  /** No more invitations are counted than banks were found. */
  lemma InvitedAtMostFound(banks: map<int, Bank>, found: set<int>, failed: set<int>, senderKnown: bool)
    ensures |Invited(banks, found, failed, senderKnown)| <= |found|
  {
    Sets.SubsetCardinality(Invited(banks, found, failed, senderKnown), found);
  }
}
