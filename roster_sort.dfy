/** The roster order of `fetch_streamers`: `sort_by_key` on
    `(Reverse(is_live), Reverse(viewer_count.unwrap_or(0)), lowercase display_name)`,
    run in place on an array and specified by the stable sort `SortBy`. */
module RosterSort {
  import opened Wrappers
  import opened Ascii
  import opened Streamers
  import opened StableSort

  function Viewers(s: Streamer): int
  {
    if s.viewerCount.Some? then s.viewerCount.value as int else 0
  }

  /** `a` sorts strictly before `b`: live before offline, then more viewers
      first, then lower-cased display name ascending. */
  predicate Before(a: Streamer, b: Streamer)
  {
    if a.isLive != b.isLive then a.isLive
    else if Viewers(a) != Viewers(b) then Viewers(a) > Viewers(b)
    else Less(Lower(a.displayName), Lower(b.displayName))
  }

  /** `a` and `b` have equal sort keys. */
  predicate SameKey(a: Streamer, b: Streamer)
  {
    a.isLive == b.isLive && Viewers(a) == Viewers(b) && Lower(a.displayName) == Lower(b.displayName)
  }

  /** The roster sort. */
  function SortByKey(s: seq<Streamer>): seq<Streamer>
  {
    SortBy(s, Before)
  }

  lemma BeforeAsymmetric(a: Streamer, b: Streamer)
    ensures Before(a, b) ==> !Before(b, a)
  {
    LessAsymmetric(Lower(a.displayName), Lower(b.displayName));
  }

  /** Keys are totally ordered: two entries either have equal keys or one
      sorts before the other. */
  lemma BeforeTotal(a: Streamer, b: Streamer)
    ensures SameKey(a, b) || Before(a, b) || Before(b, a)
  {
    LessTotal(Lower(a.displayName), Lower(b.displayName));
  }

  /** Tied under `Before` means equal keys. */
  lemma TiedIsSameKey(a: Streamer, b: Streamer)
    ensures Tied(Before, a, b) <==> SameKey(a, b)
  {
    LessIrreflexive(Lower(a.displayName));
    BeforeTotal(a, b);
  }

  lemma BeforeTransitive(a: Streamer, b: Streamer, c: Streamer)
    requires Before(a, b) && Before(b, c)
    ensures Before(a, c)
  {
    if a.isLive == b.isLive == c.isLive && Viewers(a) == Viewers(b) == Viewers(c) {
      LessTransitive(Lower(a.displayName), Lower(b.displayName), Lower(c.displayName));
    }
  }

  /** "Not after" is transitive. */
  lemma NotBeforeTransitive(a: Streamer, b: Streamer, c: Streamer)
    requires !Before(b, a) && !Before(c, b)
    ensures !Before(c, a)
  {
    BeforeTotal(a, b);
    BeforeTotal(b, c);
    if Before(c, a) {
      if Before(a, b) {
        BeforeTransitive(c, a, b);
        BeforeAsymmetric(c, b);
      } else {
        assert SameKey(a, b);
        BeforeTotal(c, b);
        if SameKey(b, c) {
          LessIrreflexive(Lower(a.displayName));
        } else {
          BeforeTransitive(b, c, a);
          BeforeAsymmetric(b, a);
        }
      }
    }
  }

  /** The key order is a strict weak order, so the stable-sort lemmas apply. */
  lemma BeforeWeakOrder()
    ensures WeakOrder(Before)
  {
    forall a, b ensures Before(a, b) ==> !Before(b, a) {
      BeforeAsymmetric(a, b);
    }
    forall a, b, c | !Before(b, a) && !Before(c, b) ensures !Before(c, a) {
      NotBeforeTransitive(a, b, c);
    }
  }

  /** The roster order in the words of the page: for any two entries with
      the first before the second, the first is live and the second offline,
      or they agree on liveness and the first has more viewers, or they agree
      on both and the first's lower-cased name is not greater. */
  lemma RosterOrder(s: seq<Streamer>, i: int, j: int)
    requires 0 <= i < j < |SortByKey(s)|
    ensures var a, b := SortByKey(s)[i], SortByKey(s)[j];
      (a.isLive && !b.isLive) ||
      (a.isLive == b.isLive && Viewers(a) > Viewers(b)) ||
      (a.isLive == b.isLive && Viewers(a) == Viewers(b) && !Less(Lower(b.displayName), Lower(a.displayName)))
  {
    BeforeWeakOrder();
    SortBySorted(s, Before);
    assert !Before(SortByKey(s)[j], SortByKey(s)[i]);
  }

  /** The roster holds exactly the merged entries. */
  lemma RosterPermutation(s: seq<Streamer>)
    ensures multiset(SortByKey(s)) == multiset(s)
  {
    SortByPermutation(s, Before);
  }

  /** Entries with equal keys keep the order they had before sorting. */
  lemma RosterStable(s: seq<Streamer>, y: Streamer)
    ensures TiedWith(SortByKey(s), y, Before) == TiedWith(s, y, Before)
  {
    BeforeWeakOrder();
    SortByStable(s, y, Before);
  }

  /** `streamers.sort_by_key(...)` in place. */
  method SortRoster(a: array<Streamer>)
    modifies a
    ensures a[..] == SortByKey(old(a[..]))
  {
    SortInPlace(a, Before);
  }
}
