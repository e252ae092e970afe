/** The link to a creator's public page, shared by the broadcaster and the
    player: it names the creator by display name when the profile has one,
    else by address, else there is no link. The URL encoding of the chosen
    value is not modelled; the target says which value is encoded. */
module ProfileLink {
  import opened Common
  import Store

  datatype ProfileTarget = ByName(name: string) | ByAddress(address: string) | NoProfile

  /** The display name the page learns from the profile lookup: only a
      non-empty one is kept, and an empty id or a failed lookup leaves none. */
  function FetchedDisplayName(id: string, lookup: Result<Option<Store.UserRow>, string>): (r: Option<string>)
    ensures r.Some? ==> r.value != "" && id != ""
    ensures r.Some? ==> lookup.Success? && lookup.value.Some? && lookup.value.value.displayName == r
  {
    if id == "" then None
    else match lookup
      case Success(Some(p)) => if Present(p.displayName) then p.displayName else None
      case _ => None
  }

  /** The link target: display name first, then the address. */
  function TargetOf(displayName: Option<string>, address: string): (t: ProfileTarget)
    ensures Present(displayName) ==> t == ByName(displayName.value)
    ensures !Present(displayName) && address != "" ==> t == ByAddress(address)
    ensures t == NoProfile <==> !Present(displayName) && address == ""
  {
    if Present(displayName) then ByName(displayName.value)
    else if address != "" then ByAddress(address)
    else NoProfile
  }

  /** With a reachable store the link uses the stored display name when there
      is one; a failed lookup falls back to the address. */
  lemma TargetFollowsStore(users: Store.Table<Store.UserRow>, id: string, m: string)
    requires id != ""
    ensures var t := TargetOf(FetchedDisplayName(id, Store.GetUserProfile(users, id, None)), id);
      && (id in users && Present(users[id].displayName) ==> t == ByName(users[id].displayName.value))
      && (id !in users || !Present(users[id].displayName) ==> t == ByAddress(id))
    ensures TargetOf(FetchedDisplayName(id, Store.GetUserProfile(users, id, Some(m))), id) == ByAddress(id)
  {
  }
}
