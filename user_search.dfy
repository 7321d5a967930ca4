/** The case-insensitive search box of the user and ticket lists: `field.toLowerCase()
    .includes(searchText.toLowerCase())`, re-run whenever the text or the list changes. */
module UserSearch {
  import opened JsText
  import opened Domain
  import Lists

  /** `field.toLowerCase().includes(text.toLowerCase())` */
  predicate MatchesText(field: string, text: string) {
    Includes(Lower(field), Lower(text))
  }

  /** A user is kept when the text occurs in its name or its e-mail address. */
  function UserMatches(text: string): UserRef -> bool {
    (u: UserRef) => MatchesText(u.name, text) || MatchesText(u.email, text)
  }

  /** The search effect: an empty text shows every user, any other text the users it
      matches, each as often as it occurs, in their original order. */
  function SearchUsers(users: seq<UserRef>, text: string): (r: seq<UserRef>)
    ensures text == "" ==> r == users
    ensures text != "" ==> forall k :: 0 <= k < |r| ==>
      r[k] in users && (MatchesText(r[k].name, text) || MatchesText(r[k].email, text))
    ensures text != "" ==> forall k :: 0 <= k < |users| ==>
      (MatchesText(users[k].name, text) || MatchesText(users[k].email, text)) ==> users[k] in r
    ensures text != "" ==>
      forall u {:trigger multiset(r)[u]} :: multiset(r)[u] ==
        if MatchesText(u.name, text) || MatchesText(u.email, text) then multiset(users)[u] else 0
    ensures Lists.SubsequenceOf(r, users)
  {
    if text == "" then
      Lists.FilterKeepsAll(users, (u: UserRef) => true);
      Lists.FilterIsSubsequence(users, (u: UserRef) => true);
      users
    else
      Lists.FilterIsSubsequence(users, UserMatches(text));
      Lists.FilterCounts(users, UserMatches(text));
      Lists.Filter(users, UserMatches(text))
  }

  /** Lower-casing leaves a lower-cased text as it is, so matching ignores the case of the
      search text. */
  lemma MatchIgnoresTextCase(field: string, text: string)
    ensures MatchesText(field, text) == MatchesText(field, Lower(text))
  {
    LowerIdempotent(text);
  }

  /** The search ignores the case of what is typed. */
  lemma {:induction false} SearchIgnoresCase(users: seq<UserRef>, text: string)
    ensures SearchUsers(users, text) == SearchUsers(users, Lower(text))
  {
    if text != "" {
      assert Lower(text) != "" by { assert |Lower(text)| == |text|; }
      forall k | 0 <= k < |users|
        ensures UserMatches(text)(users[k]) == UserMatches(Lower(text))(users[k])
      {
        MatchIgnoresTextCase(users[k].name, text);
        MatchIgnoresTextCase(users[k].email, text);
      }
      Lists.FilterSameTest(users, UserMatches(text), UserMatches(Lower(text)));
    }
  }

  /** Whatever contains a text contains each of its prefixes. */
  lemma IncludesPrefix(s: string, a: string, b: string)
    requires Includes(s, a + b)
    ensures Includes(s, a)
  {
    var i :| 0 <= i <= |s| - |a + b| && OccursAt(s, a + b, i);
    assert s[i..i + |a|] == (a + b)[..|a|] == a;
    assert OccursAt(s, a, i);
  }

  /** `toLowerCase` works character by character. */
  lemma LowerAppend(a: string, b: string)
    ensures Lower(a + b) == Lower(a) + Lower(b)
  {
  }

  /** Typing further characters only narrows the list. */
  lemma NarrowingSearch(users: seq<UserRef>, text: string, more: string)
    requires text != ""
    ensures forall k :: 0 <= k < |SearchUsers(users, text + more)| ==>
      SearchUsers(users, text + more)[k] in SearchUsers(users, text)
  {
    LowerAppend(text, more);
    var longer := SearchUsers(users, text + more);
    forall k | 0 <= k < |longer|
      ensures longer[k] in SearchUsers(users, text)
    {
      var u := longer[k];
      if MatchesText(u.name, text + more) {
        IncludesPrefix(Lower(u.name), Lower(text), Lower(more));
      } else {
        IncludesPrefix(Lower(u.email), Lower(text), Lower(more));
      }
      var j :| 0 <= j < |users| && users[j] == u;
    }
  }

  function NotAmong(ids: seq<string>): UserRef -> bool {
    (u: UserRef) => u.id !in ids
  }

  /** `allUsers.filter(user => !ids.includes(user._id))`: the users not already taken, in
      each as often as it occurs, in their original order. */
  function WithoutIds(users: seq<UserRef>, ids: seq<string>): (r: seq<UserRef>)
    ensures forall k :: 0 <= k < |r| ==> r[k] in users && r[k].id !in ids
    ensures forall k :: 0 <= k < |users| && users[k].id !in ids ==> users[k] in r
    ensures forall u {:trigger multiset(r)[u]} :: multiset(r)[u] == if u.id !in ids then multiset(users)[u] else 0
    ensures Lists.SubsequenceOf(r, users)
  {
    Lists.FilterIsSubsequence(users, NotAmong(ids));
    Lists.FilterCounts(users, NotAmong(ids));
    Lists.Filter(users, NotAmong(ids))
  }
}
