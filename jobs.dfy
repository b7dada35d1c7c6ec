/** Job collection (`fetch_jobs`): walk the job cards in document order,
    look up the five sub-elements of each, and keep the card when one of the
    configured location terms occurs, case-insensitively, in its location. */
module Jobs {
  import opened Text

  datatype Option<T> = None | Some(value: T)

  datatype Result<T, E> = Ok(value: T) | Err(error: E)

  /** The five sub-elements looked up in each card, in lookup order. */
  datatype Field = Title | Company | Location | Posted | Link

  /** Position of a field in the lookup order. */
  function Rank(f: Field): nat {
    match f
    case Title => 0
    case Company => 1
    case Location => 2
    case Posted => 3
    case Link => 4
  }

  /** A job card as the page gives it. Title, company, location and posted
      are the `get_text(strip=True)` text of their elements; link is the raw,
      unstripped `href` of the `a.title.fw500` anchor, looked up with its own
      selector. Each is None where the lookup fails: no element found, or for
      link no anchor or an anchor without an href. */
  datatype Card = Card(
    title: Option<string>,
    company: Option<string>,
    location: Option<string>,
    posted: Option<string>,
    link: Option<string>)

  /** A collected job: the five values appended for a kept card. */
  datatype Job = Job(title: string, company: string, location: string, posted: string, link: string)

  /** The exception that ends the collection: which card, which lookup. */
  datatype FetchError = MissingElement(card: nat, field: Field)

  function Lookup(c: Card, f: Field): Option<string> {
    match f
    case Title => c.title
    case Company => c.company
    case Location => c.location
    case Posted => c.posted
    case Link => c.link
  }

  function Get(j: Job, f: Field): string {
    match f
    case Title => j.title
    case Company => j.company
    case Location => j.location
    case Posted => j.posted
    case Link => j.link
  }

  /** The configured `FILTERS["location"]`. */
  const LocationTerms: seq<string> := ["Remote", "Bengaluru", "Hyderabad", "India"]

  /** `any(loc.lower() in location.lower() for loc in terms)`: true exactly
      when some term, lower-cased, is in the lower-cased location. */
  predicate AnyTermIn(terms: seq<string>, location: string)
    ensures AnyTermIn(terms, location) <==>
      exists k :: 0 <= k < |terms| && Contains(Lower(location), Lower(terms[k]))
  {
    if terms == [] then false
    else Contains(Lower(location), Lower(terms[0])) || AnyTermIn(terms[1..], location)
  }

  /** The lower-cased term is a substring of the lower-cased location. */
  ghost predicate TermOccurs(term: string, location: string) {
    exists i :: OccursAt(Lower(location), Lower(term), i)
  }

  /** The filter keeps a location exactly when some term, lower-cased, occurs
      in the lower-cased location. */
  lemma {:induction false} AnyTermInIff(terms: seq<string>, location: string)
    ensures AnyTermIn(terms, location) <==> exists k :: 0 <= k < |terms| && TermOccurs(terms[k], location)
    decreases |terms|
  {
    if terms != [] {
      ContainsIff(Lower(location), Lower(terms[0]));
      AnyTermInIff(terms[1..], location);
      if k :| 0 <= k < |terms| && TermOccurs(terms[k], location) {
        if k > 0 {
          assert terms[1..][k - 1] == terms[k];
        }
      }
      if k :| 0 <= k < |terms[1..]| && TermOccurs(terms[1..][k], location) {
        assert terms[1..][k] == terms[k + 1];
      }
    }
  }

  /** Matching ignores the case of the location's letters. */
  lemma {:induction false} MatchIgnoresCase(terms: seq<string>, location: string)
    ensures AnyTermIn(terms, location) == AnyTermIn(terms, Lower(location))
    decreases |terms|
  {
    if terms != [] {
      LowerIdempotent(location);
      MatchIgnoresCase(terms[1..], location);
    }
  }

  /** A location in capitals matches a term in mixed case. */
  lemma CapitalLocationMatches()
    ensures AnyTermIn(["Bengaluru"], "BENGALURU, India")
  {
    assert Lower("Bengaluru") <= Lower("BENGALURU, India");
  }

  /** A location none of the configured terms occurs in is dropped. */
  lemma OtherCityDropped()
    ensures !AnyTermIn(LocationTerms, "Pune")
  {
  }

  /** With no empty term configured, an empty location never matches. */
  lemma {:induction false} EmptyLocationNeverMatches(terms: seq<string>)
    requires forall k :: 0 <= k < |terms| ==> terms[k] != ""
    ensures !AnyTermIn(terms, "")
    decreases |terms|
  {
    if terms != [] {
      EmptyHayContainsOnlyEmpty(Lower(terms[0]));
      assert |Lower(terms[0])| == |terms[0]| > 0;
      EmptyLocationNeverMatches(terms[1..]);
    }
  }

  /** The lookups of one card, in order; the first one that fails is
      reported, whether or not the card would have been kept. */
  function Extract(c: Card): (r: Result<Job, Field>)
    ensures r.Ok? <==> forall f :: Lookup(c, f).Some?
    ensures r.Ok? ==> forall f :: Lookup(c, f) == Some(Get(r.value, f))
    ensures r.Err? ==> Lookup(c, r.error).None?
    ensures r.Err? ==> forall f :: Rank(f) < Rank(r.error) ==> Lookup(c, f).Some?
  {
    if c.title.None? then assert Lookup(c, Title).None?; Err(Title)
    else if c.company.None? then assert Lookup(c, Company).None?; Err(Company)
    else if c.location.None? then assert Lookup(c, Location).None?; Err(Location)
    else if c.posted.None? then assert Lookup(c, Posted).None?; Err(Posted)
    else if c.link.None? then assert Lookup(c, Link).None?; Err(Link)
    else Ok(Job(c.title.value, c.company.value, c.location.value, c.posted.value, c.link.value))
  }

  /** A card passes the location filter. */
  predicate Keeps(terms: seq<string>, c: Card) {
    c.location.Some? && AnyTermIn(terms, c.location.value)
  }

  /** What `fetch_jobs` returns for these cards: the state of `jobs` after
      the loop has gone through them all, or the first lookup failure. */
  function Collect(terms: seq<string>, cards: seq<Card>): (r: Result<seq<Job>, FetchError>)
    ensures r.Ok? ==> |r.value| <= |cards|
    ensures r.Err? ==> r.error.card < |cards|
    decreases |cards|
  {
    if cards == [] then Ok([])
    else
      var n := |cards| - 1;
      match Collect(terms, cards[..n])
      case Err(e) => Err(e)
      case Ok(jobs) =>
        match Extract(cards[n])
        case Err(f) => Err(MissingElement(n, f))
        case Ok(job) => Ok(if AnyTermIn(terms, job.location) then jobs + [job] else jobs)
  }

  /** Once a prefix of the cards has failed, the whole collection fails the
      same way: the cards after it are never looked at. */
  lemma {:induction false} CollectErrPersists(terms: seq<string>, cards: seq<Card>, i: nat)
    requires i <= |cards|
    requires Collect(terms, cards[..i]).Err?
    ensures Collect(terms, cards) == Collect(terms, cards[..i])
    decreases |cards|
  {
    if i < |cards| {
      var n := |cards| - 1;
      assert cards[..n][..i] == cards[..i];
      CollectErrPersists(terms, cards[..n], i);
    } else {
      assert cards[..i] == cards;
    }
  }

  /** Collection fails exactly when some card misses a sub-element; the
      error names the first such card and its first missing lookup, even when
      that card's location would not have matched. */
  lemma {:induction false} CollectFailsAtFirstIncompleteCard(terms: seq<string>, cards: seq<Card>)
    ensures Collect(terms, cards).Ok? <==> forall i :: 0 <= i < |cards| ==> Extract(cards[i]).Ok?
    ensures Collect(terms, cards).Err? ==>
      var e := Collect(terms, cards).error;
      && e.card < |cards|
      && Extract(cards[e.card]) == Err(e.field)
      && forall i :: 0 <= i < e.card ==> Extract(cards[i]).Ok?
    decreases |cards|
  {
    if cards != [] {
      var n := |cards| - 1;
      CollectFailsAtFirstIncompleteCard(terms, cards[..n]);
      assert forall i :: 0 <= i < n ==> cards[..n][i] == cards[i];
    }
  }

  /** The positions of the cards that pass the filter, in document order. */
  ghost function KeptPositions(terms: seq<string>, cards: seq<Card>): seq<nat>
    decreases |cards|
  {
    if cards == [] then []
    else
      var n := |cards| - 1;
      KeptPositions(terms, cards[..n]) + (if Keeps(terms, cards[n]) then [n] else [])
  }

  /** KeptPositions lists, in increasing order, exactly the positions of the
      cards whose location matches. */
  lemma {:induction false} KeptPositionsAreTheMatches(terms: seq<string>, cards: seq<Card>)
    ensures forall k :: 0 <= k < |KeptPositions(terms, cards)| ==> KeptPositions(terms, cards)[k] < |cards|
    ensures forall k, l :: 0 <= k < l < |KeptPositions(terms, cards)| ==>
      KeptPositions(terms, cards)[k] < KeptPositions(terms, cards)[l]
    ensures forall i :: 0 <= i < |cards| ==> (i in KeptPositions(terms, cards) <==> Keeps(terms, cards[i]))
    decreases |cards|
  {
    if cards != [] {
      var n := |cards| - 1;
      KeptPositionsAreTheMatches(terms, cards[..n]);
      assert forall i :: 0 <= i < n ==> cards[..n][i] == cards[i];
    }
  }

  /** A successful collection is the filtered subsequence: its k-th job is
      the record of the card at the k-th kept position. */
  lemma {:induction false} CollectSelectsKeptCards(terms: seq<string>, cards: seq<Card>, jobs: seq<Job>)
    requires Collect(terms, cards) == Ok(jobs)
    ensures |jobs| == |KeptPositions(terms, cards)|
    ensures forall k :: 0 <= k < |jobs| ==>
      KeptPositions(terms, cards)[k] < |cards| &&
      Extract(cards[KeptPositions(terms, cards)[k]]) == Ok(jobs[k])
    decreases |cards|
  {
    if cards != [] {
      var n := |cards| - 1;
      var init := cards[..n];
      var prev := Collect(terms, init).value;
      var ps := KeptPositions(terms, init);
      CollectSelectsKeptCards(terms, init, prev);
      var job := Extract(cards[n]).value;
      assert KeptPositions(terms, cards) == ps + (if Keeps(terms, cards[n]) then [n] else []);
      if Keeps(terms, cards[n]) {
        assert jobs == prev + [job];
        forall k | 0 <= k < |jobs|
          ensures (ps + [n])[k] < |cards| && Extract(cards[(ps + [n])[k]]) == Ok(jobs[k])
        {
          if k < |prev| {
            assert cards[ps[k]] == init[ps[k]];
          }
        }
      } else {
        assert jobs == prev;
        forall k | 0 <= k < |jobs|
          ensures ps[k] < |cards| && Extract(cards[ps[k]]) == Ok(jobs[k])
        {
          assert cards[ps[k]] == init[ps[k]];
        }
      }
    }
  }

  /** Every collected job's location matches a term. */
  lemma {:induction false} CollectedJobsMatch(terms: seq<string>, cards: seq<Card>, jobs: seq<Job>)
    requires Collect(terms, cards) == Ok(jobs)
    ensures forall k :: 0 <= k < |jobs| ==> AnyTermIn(terms, jobs[k].location)
    decreases |cards|
  {
    if cards != [] {
      var n := |cards| - 1;
      CollectedJobsMatch(terms, cards[..n], Collect(terms, cards[..n]).value);
    }
  }

  /** With the configured terms, no job with an empty location is ever
      collected. */
  lemma NoEmptyLocationCollected(cards: seq<Card>, jobs: seq<Job>)
    requires Collect(LocationTerms, cards) == Ok(jobs)
    ensures forall k :: 0 <= k < |jobs| ==> jobs[k].location != ""
  {
    CollectedJobsMatch(LocationTerms, cards, jobs);
    EmptyLocationNeverMatches(LocationTerms);
  }

  /** `fetch_jobs` over the cards `soup.select(".jobTuple")` yields. */
  method FetchJobs(cards: seq<Card>) returns (r: Result<seq<Job>, FetchError>)
    ensures r == Collect(LocationTerms, cards)
  {
    var jobs: seq<Job> := [];
    var i := 0;
    while i < |cards|
      invariant 0 <= i <= |cards|
      invariant Collect(LocationTerms, cards[..i]) == Ok(jobs)
    {
      var card := cards[i];
      assert cards[..i + 1][..i] == cards[..i];
      var missing: Option<Field> := None;
      if card.title.None? {
        missing := Some(Title);
      } else if card.company.None? {
        missing := Some(Company);
      } else if card.location.None? {
        missing := Some(Location);
      } else if card.posted.None? {
        missing := Some(Posted);
      } else if card.link.None? {
        missing := Some(Link);
      }
      if missing.Some? {
        r := Err(MissingElement(i, missing.value));
        CollectErrPersists(LocationTerms, cards, i + 1);
        return;
      }
      var title, company, location, posted, link :=
        card.title.value, card.company.value, card.location.value, card.posted.value, card.link.value;
      if AnyTermIn(LocationTerms, location) {
        jobs := jobs + [Job(title, company, location, posted, link)];
      }
      i := i + 1;
    }
    assert cards[..i] == cards;
    r := Ok(jobs);
  }
}
