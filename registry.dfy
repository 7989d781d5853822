/**
 * The per-requester search registry of discord_bot.py
 * (`user_search_results`: requester -> search id -> candidate videos):
 * registering a search, the delayed expiry, and resolving a reaction emoji
 * to one of the candidates.
 */
module Registry {
  import opened Wrappers
  import opened Tracks

  type Searches = map<string, map<string, seq<Video>>>

  /**
   * The reaction emoji the search menu offers and the reaction handler
   * accepts, as discord_bot.py spells them: the UTF-8 bytes of keycap 1, 2
   * and 3 read as Mac OS Roman text ("1Ô∏è‚É£" and so on).
   */
  const KeycapEmojis: seq<string> := [
    "1\U{D4}\U{220F}\U{E8}\U{201A}\U{C9}\U{A3}",
    "2\U{D4}\U{220F}\U{E8}\U{201A}\U{C9}\U{A3}",
    "3\U{D4}\U{220F}\U{E8}\U{201A}\U{C9}\U{A3}"
  ]

  /** The keycap emoji 1, 2 and 3 themselves (digit, U+FE0F, U+20E3), as a Discord client sends them. */
  const RealKeycaps: seq<string> := ["1\U{FE0F}\U{20E3}", "2\U{FE0F}\U{20E3}", "3\U{FE0F}\U{20E3}"]

  /** Keep the videos that are not age-restricted, in order. */
  function Unrestricted(vs: seq<Video>): (r: seq<Video>)
    ensures |r| <= |vs|
    ensures forall v :: v in r <==> v in vs && !v.ageRestricted
    ensures |vs| == 1 ==> r == if vs[0].ageRestricted then [] else vs
  {
    if vs == [] then []
    else if vs[0].ageRestricted then Unrestricted(vs[1..])
    else [vs[0]] + Unrestricted(vs[1..])
  }

  /** The filter works element by element: filtering a concatenation concatenates the filtered parts, in order. */
  lemma {:induction false} UnrestrictedAppend(a: seq<Video>, b: seq<Video>)
    ensures Unrestricted(a + b) == Unrestricted(a) + Unrestricted(b)
    decreases |a|
  {
    if a == [] {
      assert a + b == b;
    } else {
      assert (a + b)[0] == a[0] && (a + b)[1..] == a[1..] + b;
      UnrestrictedAppend(a[1..], b);
    }
  }

  /** The length of the first-three window of a result list. */
  function WindowLength(results: seq<Video>): nat
  {
    if |results| < 3 then |results| else 3
  }

  /** The candidates kept from a search: the first three results, minus the age-restricted ones. */
  function Top3(results: seq<Video>): (r: seq<Video>)
    ensures |r| <= 3
    ensures forall v :: v in r <==> v in results[..WindowLength(results)] && !v.ageRestricted
  {
    Unrestricted(results[..WindowLength(results)])
  }

  /**
   * The candidates keep the order of the results: they are the first three
   * results, each kept alone exactly when it is not age-restricted.
   */
  lemma Top3InOrder(results: seq<Video>)
    requires |results| >= 3
    ensures Top3(results) == Unrestricted([results[0]]) + Unrestricted([results[1]]) + Unrestricted([results[2]])
  {
    assert results[..3] == [results[0]] + [results[1]] + [results[2]];
    UnrestrictedAppend([results[0]] + [results[1]], [results[2]]);
    UnrestrictedAppend([results[0]], [results[1]]);
  }

  /** With no restricted result among the first three, candidate k is result k, so the (k+1)-th accepted emoji picks result k+1. */
  lemma Top3NoneRestricted(results: seq<Video>)
    requires forall i :: 0 <= i < WindowLength(results) ==> !results[i].ageRestricted
    ensures Top3(results) == results[..WindowLength(results)]
  {
    UnrestrictedKeepsAllowed(results[..WindowLength(results)]);
  }

  /** A list without restricted videos passes the filter unchanged. */
  lemma {:induction false} UnrestrictedKeepsAllowed(vs: seq<Video>)
    requires forall i :: 0 <= i < |vs| ==> !vs[i].ageRestricted
    ensures Unrestricted(vs) == vs
    decreases |vs|
  {
    if vs != [] {
      UnrestrictedKeepsAllowed(vs[1..]);
      assert [vs[0]] + vs[1..] == vs;
    }
  }

  /** The searches a requester has outstanding (an absent requester has none). */
  function Outstanding(m: Searches, requester: string): map<string, seq<Video>>
  {
    if requester in m then m[requester] else map[]
  }

  /** Registering a search stores its candidates under the requester and search id and keeps everything else. */
  function Registered(m: Searches, requester: string, searchId: string, candidates: seq<Video>): (m': Searches)
    ensures m'.Keys == m.Keys + {requester}
    ensures m'[requester].Keys == Outstanding(m, requester).Keys + {searchId}
    ensures m'[requester][searchId] == candidates
    ensures forall id :: id in Outstanding(m, requester) && id != searchId ==>
              m'[requester][id] == m[requester][id]
    ensures forall r :: r in m && r != requester ==> m'[r] == m[r]
  {
    if requester in m && m[requester] != map[] then
      m[requester := m[requester][searchId := candidates]]
    else
      m[requester := map[searchId := candidates]]
  }

  /** The entry the expiry timer deletes: present, under a non-empty requester map, with a non-empty candidate list. */
  predicate Expirable(m: Searches, key: string, searchId: string)
  {
    key in m && m[key] != map[] && searchId in m[key] && m[key][searchId] != []
  }

  /** The expiry timer deletes exactly one (requester, search id) entry when it is there, and otherwise does nothing. */
  function Expired(m: Searches, key: string, searchId: string): (m': Searches)
    ensures m'.Keys == m.Keys
    ensures forall r :: r in m && r != key ==> m'[r] == m[r]
    ensures key in m ==> m'[key].Keys == m[key].Keys - (if Expirable(m, key, searchId) then {searchId} else {})
    ensures key in m ==> forall id :: id in m'[key] ==> m'[key][id] == m[key][id]
    ensures !Expirable(m, key, searchId) ==> m' == m
  {
    if key !in m || m[key] == map[] then m
    else if searchId !in m[key] || m[key][searchId] == [] then m
    else m[key := m[key] - {searchId}]
  }

  /** Which candidate a reaction picks: the three accepted emoji pick positions 0, 1, 2; any other emoji picks none. */
  function EmojiChoice(emoji: string): (k: Option<nat>)
    ensures k.Some? <==> emoji in KeycapEmojis
    ensures k.Some? ==> k.value < |KeycapEmojis| && KeycapEmojis[k.value] == emoji
  {
    if emoji == KeycapEmojis[0] then Some(0)
    else if emoji == KeycapEmojis[1] then Some(1)
    else if emoji == KeycapEmojis[2] then Some(2)
    else None
  }

  /**
   * The video a reaction selects: none when the requester or search id is not
   * registered (a KeyError in the handler), when the emoji is not one of the
   * three accepted ones, or when the search kept fewer candidates (an
   * IndexError).
   */
  function SelectCandidate(m: Searches, requester: string, searchId: string, emoji: string): (v: Option<Video>)
    ensures v.Some? <==>
              requester in m && searchId in m[requester] && emoji in KeycapEmojis
              && EmojiChoice(emoji).value < |m[requester][searchId]|
    ensures v.Some? ==> v.value == m[requester][searchId][EmojiChoice(emoji).value]
  {
    if requester !in m || searchId !in m[requester] then None
    else
      match EmojiChoice(emoji)
      case None => None
      case Some(k) => if k < |m[requester][searchId]| then Some(m[requester][searchId][k]) else None
  }

  /** Right after registering, the (k+1)-th accepted emoji selects the (k+1)-th candidate. */
  lemma SelectAfterRegister(m: Searches, requester: string, searchId: string, candidates: seq<Video>, k: nat)
    requires k < |candidates| && k < |KeycapEmojis|
    ensures SelectCandidate(Registered(m, requester, searchId, candidates), requester, searchId, KeycapEmojis[k])
            == Some(candidates[k])
  {
    assert EmojiChoice(KeycapEmojis[k]) == Some(k);
  }

  /**
   * A reaction with a real keycap emoji selects nothing, whatever is
   * registered: none of them is among the accepted spellings.
   */
  lemma RealKeycapSelectsNothing(m: Searches, requester: string, searchId: string, k: nat)
    requires k < |RealKeycaps|
    ensures EmojiChoice(RealKeycaps[k]).None?
    ensures SelectCandidate(m, requester, searchId, RealKeycaps[k]) == None
  {
    forall j | 0 <= j < |KeycapEmojis|
      ensures KeycapEmojis[j] != RealKeycaps[k]
    {
      assert KeycapEmojis[j][1] != RealKeycaps[k][1];
    }
  }

  /** Once an entry has expired under the key it was registered with, no reaction can select from it. */
  lemma SelectAfterExpire(m: Searches, requester: string, searchId: string, emoji: string)
    requires Expirable(m, requester, searchId)
    ensures SelectCandidate(Expired(m, requester, searchId), requester, searchId, emoji) == None
  {
  }

  /**
   * A search registered under one name and expired under a different one is
   * left in place: it stays selectable.
   */
  lemma ExpiryUnderOtherNameKeepsEntry(m: Searches, name: string, displayName: string, searchId: string,
                                       candidates: seq<Video>)
    requires name != displayName
    ensures var m' := Registered(m, name, searchId, candidates);
      Expired(m', displayName, searchId)[name][searchId] == candidates
  {
  }
}
