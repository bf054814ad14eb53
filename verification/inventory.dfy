/** The operations the game performs on the player's inventory list. */
module Inventory {
  import opened Catalog

  /** Lower-casing of one character, for the ASCII letters that item names use. */
  function ToLower(c: char): char {
    if 'A' <= c <= 'Z' then (c as int + 32) as char else c
  }

  function Lower(s: string): string {
    seq(|s|, i requires 0 <= i < |s| => ToLower(s[i]))
  }

  /**
   * How an item's name is compared with the name asked for: exactly when a potion
   * is used, ignoring letter case when an item is sold.
   */
  predicate NameMatches(it: Item, name: string, ignoreCase: bool) {
    if ignoreCase then Lower(it.name) == Lower(name) else it.name == name
  }

  /** `findIndex`: the position of the first matching item, or -1 when none matches. */
  function IndexWhere(s: seq<Item>, name: string, ignoreCase: bool): (i: int)
    ensures -1 <= i < |s|
    ensures i == -1 <==> forall j :: 0 <= j < |s| ==> !NameMatches(s[j], name, ignoreCase)
    ensures 0 <= i ==> NameMatches(s[i], name, ignoreCase)
    ensures 0 <= i ==> forall j :: 0 <= j < i ==> !NameMatches(s[j], name, ignoreCase)
  {
    if s == [] then -1
    else if NameMatches(s[0], name, ignoreCase) then 0
    else
      var k := IndexWhere(s[1..], name, ignoreCase);
      if k == -1 then -1 else k + 1
  }

  /** `splice(i, 1)`: drop the element at `i`; the others keep their order. */
  function RemoveAt<T>(s: seq<T>, i: nat): (r: seq<T>)
    requires i < |s|
    ensures |r| == |s| - 1
    ensures forall j :: 0 <= j < i ==> r[j] == s[j]
    ensures forall j :: i <= j < |r| ==> r[j] == s[j + 1]
    ensures multiset(r) + multiset{s[i]} == multiset(s)
  {
    assert s == s[..i] + [s[i]] + s[i + 1..];
    s[..i] + s[i + 1..]
  }

  /**
   * Selling finds the herbs under any capitalisation of their name, while the potion
   * lookup of `useItem` only accepts the exact name.
   */
  lemma SellNameIgnoresCase()
    ensures NameMatches(HERBS, "herbs", true) && NameMatches(HERBS, "HERBS", true)
    ensures !NameMatches(HERBS, "herbs", false)
    ensures !NameMatches(HEALTH_POTION, "health potion", false)
  {
  }

  /**
   * Whatever the exact lookup finds, the case-insensitive lookup also finds, at the
   * same position or an earlier one.
   */
  lemma IgnoringCaseFindsNoLater(s: seq<Item>, name: string)
    requires IndexWhere(s, name, false) != -1
    ensures 0 <= IndexWhere(s, name, true) <= IndexWhere(s, name, false)
  {
  }
}
