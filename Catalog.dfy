/** The fixed list of companies and the search filter over it
    (`companies` and `filteredCompanies` in the dashboard component). */
module Catalog {
  import opened Text

  /** One selectable company; `symbol` is its exchange ticker. */
  datatype Company = Company(name: string, symbol: string)

  /** The catalog, in the order the sidebar lists it. */
  function Companies(): (cs: seq<Company>)
    ensures |cs| == 49
  {
    [
      Company("Reliance Industries", "RELIANCE.NS"),
      Company("Tata Consultancy Services", "TCS.NS"),
      Company("Infosys", "INFY.NS"),
      Company("State Bank of India", "SBIN.NS"),
      Company("HDFC Bank", "HDFCBANK.NS"),
      Company("Hindustan Unilever", "HINDUNILVR.NS"),
      Company("Kotak Mahindra Bank", "KOTAKBANK.NS"),
      Company("ICICI Bank", "ICICIBANK.NS"),
      Company("Bharti Airtel", "BHARTIARTL.NS"),
      Company("Adani Ports", "ADANIPORTS.NS"),
      Company("Wipro", "WIPRO.NS"),
      Company("HCL Technologies", "HCLTECH.NS"),
      Company("Tech Mahindra", "TECHM.NS"),
      Company("Axis Bank", "AXISBANK.NS"),
      Company("Tata Motors", "TATAMOTORS.NS"),
      Company("Maruti Suzuki", "MARUTI.NS"),
      Company("Mahindra & Mahindra", "M&M.NS"),
      Company("Bajaj Finance", "BAJFINANCE.NS"),
      Company("Bajaj Finserv", "BAJAJFINSV.NS"),
      Company("Tata Steel", "TATASTEEL.NS"),
      Company("JSW Steel", "JSWSTEEL.NS"),
      Company("Power Grid Corp", "POWERGRID.NS"),
      Company("NTPC", "NTPC.NS"),
      Company("Larsen & Toubro", "LT.NS"),
      Company("UltraTech Cement", "ULTRACEMCO.NS"),
      Company("Asian Paints", "ASIANPAINT.NS"),
      Company("Nestle India", "NESTLEIND.NS"),
      Company("Sun Pharma", "SUNPHARMA.NS"),
      Company("Dr. Reddy's Labs", "DRREDDY.NS"),
      Company("Cipla", "CIPLA.NS"),
      Company("Divi's Labs", "DIVISLAB.NS"),
      Company("Bajaj Auto", "BAJAJ-AUTO.NS"),
      Company("Hero MotoCorp", "HEROMOTOCO.NS"),
      Company("Eicher Motors", "EICHERMOT.NS"),
      Company("Grasim Industries", "GRASIM.NS"),
      Company("HDFC Life", "HDFCLIFE.NS"),
      Company("SBI Life", "SBILIFE.NS"),
      Company("ICICI Prudential Life", "ICICIPRULI.NS"),
      Company("Coal India", "COALINDIA.NS"),
      Company("Oil and Natural Gas Corp", "ONGC.NS"),
      Company("Britannia Industries", "BRITANNIA.NS"),
      Company("Tata Power", "TATAPOWER.NS"),
      Company("IndusInd Bank", "INDUSINDBK.NS"),
      Company("Shree Cement", "SHREECEM.NS"),
      Company("Adani Enterprises", "ADANIENT.NS"),
      Company("Ambuja Cements", "AMBUJACEM.NS"),
      Company("Dabur India", "DABUR.NS"),
      Company("Godrej Consumer", "GODREJCP.NS"),
      Company("Pidilite Industries", "PIDILITIND.NS")
    ]
  }

  /** The search box matches a company when the lower-cased query occurs in
      its lower-cased name or in its lower-cased symbol. */
  predicate Matches(c: Company, query: string): (b: bool)
    ensures query == [] ==> b
  {
    IncludesIgnoringCase(c.name, query) || IncludesIgnoringCase(c.symbol, query)
  }

  /** `q` occurs at some index of `s`. */
  ghost predicate Occurs(s: string, q: string)
  {
    exists i :: OccursAt(s, q, i)
  }

  /** A company matches exactly when the lower-cased query occurs at some
      index of its lower-cased name or of its lower-cased symbol. */
  lemma MatchesIff(c: Company, query: string)
    ensures Matches(c, query) <==>
      Occurs(ToLower(c.name), ToLower(query)) || Occurs(ToLower(c.symbol), ToLower(query))
  {
    var name, symbol, q := ToLower(c.name), ToLower(c.symbol), ToLower(query);
    IncludesIff(name, q);
    IncludesIff(symbol, q);
    assert Matches(c, query) <==> Includes(name, q) || Includes(symbol, q);
  }

  /** `companies.filter(...)`: the matching entries, in catalog order. */
  function Filter(cs: seq<Company>, query: string): (r: seq<Company>)
    ensures |r| <= |cs|
    ensures forall c :: c in r ==> c in cs && Matches(c, query)
  {
    if cs == [] then []
    else (if Matches(cs[0], query) then [cs[0]] else []) + Filter(cs[1..], query)
  }

  /** The list the sidebar shows for the current search term: exactly the
      catalog entries the term matches, in catalog order. */
  function FilteredCompanies(searchTerm: string): (r: seq<Company>)
    ensures forall c :: c in r <==> c in Companies() && Matches(c, searchTerm)
    ensures IsSubsequence(r, Companies())
  {
    FilterSelects(Companies(), searchTerm);
    FilterIsSubsequence(Companies(), searchTerm);
    Filter(Companies(), searchTerm)
  }

  /** An entry is listed iff it is in the catalog and the query matches it. */
  lemma {:induction false} FilterMembership(cs: seq<Company>, query: string, c: Company)
    ensures c in Filter(cs, query) <==> c in cs && Matches(c, query)
  {
    if cs != [] {
      FilterMembership(cs[1..], query, c);
      assert c in cs <==> c == cs[0] || c in cs[1..];
    }
  }

  lemma FilterSelects(cs: seq<Company>, query: string)
    ensures forall c :: c in Filter(cs, query) <==> c in cs && Matches(c, query)
  {
    forall c {
      FilterMembership(cs, query, c);
    }
  }

  /** Each entry appears in the result as often as in the input if it
      matches, and not at all otherwise: nothing is added or duplicated. */
  lemma {:induction false} FilterCount(cs: seq<Company>, query: string, c: Company)
    ensures multiset(Filter(cs, query))[c] == if Matches(c, query) then multiset(cs)[c] else 0
  {
    if cs != [] {
      FilterCount(cs[1..], query, c);
      assert cs == [cs[0]] + cs[1..];
    }
  }

  /** `r` is `s` with some entries removed and the rest kept in order. */
  ghost predicate IsSubsequence(r: seq<Company>, s: seq<Company>)
    decreases |s|
  {
    if r == [] then true
    else if s == [] then false
    else (r[0] == s[0] && IsSubsequence(r[1..], s[1..])) || IsSubsequence(r, s[1..])
  }

  lemma {:induction false} FilterIsSubsequence(cs: seq<Company>, query: string)
    ensures IsSubsequence(Filter(cs, query), cs)
  {
    if cs != [] {
      FilterIsSubsequence(cs[1..], query);
      var r := Filter(cs, query);
      if Matches(cs[0], query) {
        assert r[0] == cs[0] && r[1..] == Filter(cs[1..], query);
      } else {
        assert r == Filter(cs[1..], query);
        SubsequenceOfTail(r, cs);
      }
    }
  }

  lemma {:induction false} SubsequenceOfTail(r: seq<Company>, s: seq<Company>)
    requires s != [] && IsSubsequence(r, s[1..])
    ensures IsSubsequence(r, s)
  {
  }

  /** The empty query lists the whole catalog unchanged. */
  lemma {:induction false} FilterEmptyQuery(cs: seq<Company>)
    ensures Filter(cs, "") == cs
  {
    if cs != [] {
      FilterEmptyQuery(cs[1..]);
    }
  }

  /** Queries that agree up to ASCII case give the same list. */
  lemma {:induction false} FilterCaseInsensitive(cs: seq<Company>, q1: string, q2: string)
    requires ToLower(q1) == ToLower(q2)
    ensures Filter(cs, q1) == Filter(cs, q2)
  {
    if cs != [] {
      FilterCaseInsensitive(cs[1..], q1, q2);
    }
  }

  /** A company matched by a query is matched by each prefix of it. */
  lemma MatchesPrefix(c: Company, query: string, extra: string)
    requires Matches(c, query + extra)
    ensures Matches(c, query)
  {
    ToLowerAppend(query, extra);
    if IncludesIgnoringCase(c.name, query + extra) {
      IncludesPrefix(ToLower(c.name), ToLower(query), ToLower(extra));
    } else {
      IncludesPrefix(ToLower(c.symbol), ToLower(query), ToLower(extra));
    }
  }

  /** The filter lower-cases the search term itself, so lower-casing it
      beforehand changes nothing. */
  lemma FilterLowerQuery(cs: seq<Company>, query: string)
    ensures Filter(cs, ToLower(query)) == Filter(cs, query)
  {
    ToLowerIdempotent(query);
    FilterCaseInsensitive(cs, ToLower(query), query);
  }

  /** Lengthening the query can only remove entries: the list for the
      longer query is the shorter query's list filtered again. */
  lemma {:induction false} FilterNarrows(cs: seq<Company>, query: string, extra: string)
    ensures Filter(cs, query + extra) == Filter(Filter(cs, query), query + extra)
  {
    if cs != [] {
      FilterNarrows(cs[1..], query, extra);
      var tail := Filter(cs[1..], query);
      if Matches(cs[0], query) {
        assert Filter(cs, query) == [cs[0]] + tail;
        assert ([cs[0]] + tail)[1..] == tail;
      } else {
        if Matches(cs[0], query + extra) {
          MatchesPrefix(cs[0], query, extra);
        }
        assert Filter(cs, query) == tail;
      }
    }
  }

  /** No two entries share a symbol. */
  ghost predicate DistinctSymbols(cs: seq<Company>)
  {
    forall i, j :: 0 <= i < j < |cs| ==> cs[i].symbol != cs[j].symbol
  }

  /** The filter keeps symbols distinct, so the sidebar's list keys stay
      unique. */
  lemma {:induction false} FilterDistinctSymbols(cs: seq<Company>, query: string)
    requires DistinctSymbols(cs)
    ensures DistinctSymbols(Filter(cs, query))
  {
    if cs != [] {
      FilterDistinctSymbols(cs[1..], query);
      var rest := Filter(cs[1..], query);
      if Matches(cs[0], query) {
        forall c | c in rest ensures c.symbol != cs[0].symbol {
          var k :| 0 <= k < |cs[1..]| && cs[1..][k] == c;
          assert cs[k + 1] == c;
        }
        var r := Filter(cs, query);
        assert r == [cs[0]] + rest;
        forall i, j | 0 <= i < j < |r| ensures r[i].symbol != r[j].symbol {
          if i == 0 {
            assert r[j] in rest;
          } else {
            assert r[i] == rest[i - 1] && r[j] == rest[j - 1];
          }
        }
      }
    }
  }
}
