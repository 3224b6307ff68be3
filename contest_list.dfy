/**
 * The contest list view: the platform/status filter that runs whenever the
 * contests or the two selections change, and the choice between a grid of
 * contest cards and the "no contests" alert.
 *
 * PLATFORMS and CONTEST_STATUS are imported from src/utils/api.js, which as
 * given does not define them; their ALL values are therefore parameters here.
 */
module ContestList {
  import opened Wrappers

  /** A normalised contest record; times are epoch milliseconds. */
  datatype Contest = Contest(
    id: string,
    name: string,
    url: string,
    startTime: int,
    endTime: int,
    platform: string,
    status: string)

  /** The values that mean "no restriction" for each drop-down. */
  datatype Sentinels = Sentinels(allPlatforms: string, allStatuses: string)

  /** The current value of the platform and status drop-downs. */
  datatype Selection = Selection(platform: string, status: string)

  /** The selection that restricts nothing. */
  function SelectAll(all: Sentinels): Selection
  {
    Selection(all.allPlatforms, all.allStatuses)
  }

  // ---------------------------------------------------------------------
  // Upper-casing (String.prototype.toUpperCase, restricted to ASCII)
  // ---------------------------------------------------------------------

  predicate IsLower(ch: char)
  {
    'a' <= ch <= 'z'
  }

  /** Upper-cases one character: lower-case ASCII letters move to upper case, everything else is kept. */
  function UpperChar(ch: char): (u: char)
    ensures !IsLower(u)
    ensures u == ch <==> !IsLower(ch)
    ensures IsLower(ch) ==> 'A' <= u <= 'Z'
  {
    if IsLower(ch) then (ch as int - 32) as char else ch
  }

  /** Upper-cases a string character by character. */
  function ToUpper(s: string): (u: string)
    ensures |u| == |s|
    ensures forall i :: 0 <= i < |s| ==> u[i] == UpperChar(s[i])
  {
    if s == [] then [] else [UpperChar(s[0])] + ToUpper(s[1..])
  }

  // ---------------------------------------------------------------------
  // The filter
  // ---------------------------------------------------------------------

  /** The platform half of the filter: the ALL sentinel, or the same platform. */
  predicate PlatformMatch(c: Contest, sel: Selection, all: Sentinels)
  {
    sel.platform == all.allPlatforms || c.platform == sel.platform
  }

  /**
   * The status half of the filter: the ALL sentinel (compared before any
   * case change), or the contest's status equals the UPPER-CASED selection.
   * The contest's own status is not upper-cased.
   */
  predicate StatusMatch(c: Contest, sel: Selection, all: Sentinels)
  {
    sel.status == all.allStatuses || c.status == ToUpper(sel.status)
  }

  /** The filter's predicate: both halves hold. */
  predicate Keeps(c: Contest, sel: Selection, all: Sentinels)
  {
    PlatformMatch(c, sel, all) && StatusMatch(c, sel, all)
  }

  /** `contests.filter(...)`: the contests the predicate keeps, left to right. */
  function FilterContests(cs: seq<Contest>, sel: Selection, all: Sentinels): (r: seq<Contest>)
    ensures |r| <= |cs|
    ensures forall c :: c in r ==> c in cs && Keeps(c, sel, all)
  {
    if cs == [] then []
    else if Keeps(cs[0], sel, all) then [cs[0]] + FilterContests(cs[1..], sel, all)
    else FilterContests(cs[1..], sel, all)
  }

  /** The positions, from `i` on, of the contests the predicate keeps. */
  function KeptFrom(cs: seq<Contest>, sel: Selection, all: Sentinels, i: nat): seq<nat>
    requires i <= |cs|
    decreases |cs| - i
  {
    if i == |cs| then []
    else (if Keeps(cs[i], sel, all) then [i] else []) + KeptFrom(cs, sel, all, i + 1)
  }

  /** The positions of all kept contests. */
  function KeptPositions(cs: seq<Contest>, sel: Selection, all: Sentinels): seq<nat>
  {
    KeptFrom(cs, sel, all, 0)
  }

  ghost predicate StrictlyIncreasing(idx: seq<nat>)
  {
    forall k, l :: 0 <= k < l < |idx| ==> idx[k] < idx[l]
  }

  /** The kept positions from `i` on lie in the suffix and increase. */
  lemma {:induction false} KeptFromIncreasing(cs: seq<Contest>, sel: Selection, all: Sentinels, i: nat)
    requires i <= |cs|
    ensures forall k :: 0 <= k < |KeptFrom(cs, sel, all, i)| ==> i <= KeptFrom(cs, sel, all, i)[k] < |cs|
    ensures StrictlyIncreasing(KeptFrom(cs, sel, all, i))
    decreases |cs| - i
  {
    if i < |cs| {
      KeptFromIncreasing(cs, sel, all, i + 1);
      var rest := KeptFrom(cs, sel, all, i + 1);
      if Keeps(cs[i], sel, all) {
        var idx := [i] + rest;
        assert KeptFrom(cs, sel, all, i) == idx;
        forall k, l | 0 <= k < l < |idx|
          ensures idx[k] < idx[l]
        {
          assert idx[l] == rest[l - 1];
        }
      } else {
        assert KeptFrom(cs, sel, all, i) == rest;
      }
    }
  }

  /** The kept positions from `i` on are exactly the positions of the suffix whose contest passes. */
  lemma {:induction false} KeptFromExactly(cs: seq<Contest>, sel: Selection, all: Sentinels, i: nat)
    requires i <= |cs|
    ensures forall j :: i <= j < |cs| ==> (j in KeptFrom(cs, sel, all, i) <==> Keeps(cs[j], sel, all))
    decreases |cs| - i
  {
    if i < |cs| {
      KeptFromIncreasing(cs, sel, all, i + 1);
      KeptFromExactly(cs, sel, all, i + 1);
      var rest := KeptFrom(cs, sel, all, i + 1);
      assert i !in rest;
      if Keeps(cs[i], sel, all) {
        assert KeptFrom(cs, sel, all, i) == [i] + rest;
      } else {
        assert KeptFrom(cs, sel, all, i) == rest;
      }
    }
  }

  /** The filter over the suffix from `i` is that suffix's contests read at the kept positions. */
  lemma {:induction false} FilterFromPositions(cs: seq<Contest>, sel: Selection, all: Sentinels, i: nat)
    requires i <= |cs|
    ensures |KeptFrom(cs, sel, all, i)| == |FilterContests(cs[i..], sel, all)|
    ensures forall k :: 0 <= k < |KeptFrom(cs, sel, all, i)| ==>
              KeptFrom(cs, sel, all, i)[k] < |cs| &&
              FilterContests(cs[i..], sel, all)[k] == cs[KeptFrom(cs, sel, all, i)[k]]
    decreases |cs| - i
  {
    if i < |cs| {
      FilterFromPositions(cs, sel, all, i + 1);
      var rest := KeptFrom(cs, sel, all, i + 1);
      var r' := FilterContests(cs[i + 1..], sel, all);
      assert cs[i..][0] == cs[i];
      assert cs[i..][1..] == cs[i + 1..];
      if Keeps(cs[i], sel, all) {
        var idx := [i] + rest;
        var r := [cs[i]] + r';
        assert KeptFrom(cs, sel, all, i) == idx;
        assert FilterContests(cs[i..], sel, all) == r;
        forall k | 0 <= k < |idx|
          ensures idx[k] < |cs| && r[k] == cs[idx[k]]
        {
          if k > 0 {
            assert idx[k] == rest[k - 1] && r[k] == r'[k - 1];
          }
        }
      } else {
        assert KeptFrom(cs, sel, all, i) == rest;
        assert FilterContests(cs[i..], sel, all) == r';
      }
    }
  }

  /**
   * Order preservation: the output is the input read at a strictly
   * increasing list of positions, namely the positions of exactly those
   * contests that pass the predicate. So the output is a subsequence of
   * the input.
   */
  lemma FilterKeepsOrder(cs: seq<Contest>, sel: Selection, all: Sentinels)
    ensures var idx := KeptPositions(cs, sel, all);
            var r := FilterContests(cs, sel, all);
            && |idx| == |r|
            && StrictlyIncreasing(idx)
            && (forall k :: 0 <= k < |idx| ==> idx[k] < |cs| && r[k] == cs[idx[k]])
            && (forall j :: 0 <= j < |cs| ==> (j in idx <==> Keeps(cs[j], sel, all)))
  {
    KeptFromIncreasing(cs, sel, all, 0);
    KeptFromExactly(cs, sel, all, 0);
    FilterFromPositions(cs, sel, all, 0);
    assert cs[0..] == cs;
  }

  /**
   * Soundness and completeness with multiplicity: a contest that passes
   * appears in the output exactly as often as in the input; one that
   * fails does not appear at all.
   */
  lemma {:induction false} FilterCount(cs: seq<Contest>, sel: Selection, all: Sentinels, c: Contest)
    ensures multiset(FilterContests(cs, sel, all))[c] ==
            if Keeps(c, sel, all) then multiset(cs)[c] else 0
  {
    if cs != [] {
      FilterCount(cs[1..], sel, all, c);
      assert cs == [cs[0]] + cs[1..];
    }
  }

  /** A contest is in the output if and only if it is in the input and passes both matches. */
  lemma FilterMembership(cs: seq<Contest>, sel: Selection, all: Sentinels, c: Contest)
    ensures c in FilterContests(cs, sel, all) <==> c in cs && Keeps(c, sel, all)
  {
  }

  /** With both drop-downs on their ALL sentinels, nothing is filtered out. */
  lemma {:induction false} FilterAllIsIdentity(cs: seq<Contest>, all: Sentinels)
    ensures FilterContests(cs, SelectAll(all), all) == cs
  {
    if cs != [] {
      FilterAllIsIdentity(cs[1..], all);
    }
  }

  /** Filtering the output again with the same selection changes nothing. */
  lemma {:induction false} FilterIdempotent(cs: seq<Contest>, sel: Selection, all: Sentinels)
    ensures FilterContests(FilterContests(cs, sel, all), sel, all) == FilterContests(cs, sel, all)
  {
    if cs != [] {
      FilterIdempotent(cs[1..], sel, all);
      if Keeps(cs[0], sel, all) {
        var rest := FilterContests(cs[1..], sel, all);
        assert ([cs[0]] + rest)[0] == cs[0];
        assert ([cs[0]] + rest)[1..] == rest;
      }
    }
  }

  // ---------------------------------------------------------------------
  // Consequences of upper-casing only the selection
  // ---------------------------------------------------------------------

  /**
   * A contest whose status holds a lower-case letter matches no status
   * selection other than the ALL sentinel.
   */
  lemma LowerCaseStatusNeverMatches(c: Contest, sel: Selection, all: Sentinels, i: nat)
    requires i < |c.status| && IsLower(c.status[i])
    requires sel.status != all.allStatuses
    ensures !StatusMatch(c, sel, all)
  {
  }

  /**
   * Two non-ALL status selections that differ only in letter case keep the
   * same contests.
   */
  lemma SelectionCaseIsIgnored(c: Contest, s1: string, s2: string, platform: string, all: Sentinels)
    requires s1 != all.allStatuses && s2 != all.allStatuses
    requires ToUpper(s1) == ToUpper(s2)
    ensures Keeps(c, Selection(platform, s1), all) <==> Keeps(c, Selection(platform, s2), all)
  {
  }

  /**
   * The selection "Upcoming" keeps a contest whose status is "UPCOMING" and
   * does not keep one whose status is "Upcoming".
   */
  lemma UpperCasingIsOneSided(c: Contest, sel: Selection, all: Sentinels)
    requires sel.status == "Upcoming" && all.allStatuses != "Upcoming"
    ensures StatusMatch(c.(status := "UPCOMING"), sel, all)
    ensures !StatusMatch(c.(status := "Upcoming"), sel, all)
  {
  }

  // ---------------------------------------------------------------------
  // Rendering: one card per kept contest, or the "no contests" alert
  // ---------------------------------------------------------------------

  const NoMatchText := "No contests found matching your criteria"

  /** What one card shows; `badge` is the Bootstrap variant of the status badge. */
  datatype Card = Card(
    key: string,
    platform: string,
    badge: Option<string>,
    name: string,
    url: string,
    startTime: int,
    endTime: int)

  datatype ListView = NoMatchAlert(text: string) | CardGrid(cards: seq<Card>)

  /**
   * The `statusColors` table, looked up by its own keys; any other status
   * has no variant (`undefined`).
   */
  function StatusBadge(status: string): Option<string>
  {
    if status == "UPCOMING" then Some("warning")
    else if status == "ACTIVE" then Some("success")
    else if status == "PAST" then Some("secondary")
    else None
  }

  function CardFor(c: Contest): Card
  {
    Card(c.id, c.platform, StatusBadge(c.status), c.name, c.url, c.startTime, c.endTime)
  }

  /** `filteredContests.map(...)`: one card per contest, in order. */
  function Cards(cs: seq<Contest>): (cards: seq<Card>)
    ensures |cards| == |cs|
    ensures forall k :: 0 <= k < |cs| ==> cards[k] == CardFor(cs[k])
  {
    if cs == [] then [] else [CardFor(cs[0])] + Cards(cs[1..])
  }

  /** The rendered list: the alert exactly when nothing was kept, otherwise a card per kept contest keyed by its id. */
  function Render(filtered: seq<Contest>): (v: ListView)
    ensures v.NoMatchAlert? <==> filtered == []
    ensures v.NoMatchAlert? ==> v.text == NoMatchText
    ensures v.CardGrid? ==> |v.cards| == |filtered|
    ensures v.CardGrid? ==> forall k :: 0 <= k < |filtered| ==> v.cards[k].key == filtered[k].id
  {
    if |filtered| > 0 then CardGrid(Cards(filtered)) else NoMatchAlert(NoMatchText)
  }

  /** The list as shown for the given contests and selection. */
  function View(cs: seq<Contest>, sel: Selection, all: Sentinels): ListView
  {
    Render(FilterContests(cs, sel, all))
  }

  /** The alert is shown if and only if no input contest passes the filter. */
  lemma ViewAlertIffNothingKept(cs: seq<Contest>, sel: Selection, all: Sentinels)
    ensures View(cs, sel, all).NoMatchAlert? <==> forall c :: c in cs ==> !Keeps(c, sel, all)
  {
    var r := FilterContests(cs, sel, all);
    if r == [] {
      forall c | c in cs ensures !Keeps(c, sel, all) {
        FilterMembership(cs, sel, all, c);
      }
    } else {
      assert r[0] in r;
    }
  }

  /** Otherwise the grid holds exactly one card per kept contest, in input order. */
  lemma ViewOneCardPerKeptContest(cs: seq<Contest>, sel: Selection, all: Sentinels)
    ensures var v := View(cs, sel, all);
            var idx := KeptPositions(cs, sel, all);
            && (v.NoMatchAlert? ==> idx == [])
            && (v.CardGrid? ==> |v.cards| == |idx|)
            && (v.CardGrid? ==> forall k :: 0 <= k < |idx| ==> idx[k] < |cs| && v.cards[k] == CardFor(cs[idx[k]]))
  {
    FilterKeepsOrder(cs, sel, all);
  }
}
