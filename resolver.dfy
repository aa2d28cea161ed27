/** Company resolution: from the test's name and tags to exactly one company of
    the ticketing system's directory, or the placeholder company 0. */
module Resolver {
  import opened Optional
  import opened Seqs
  import opened Text

  datatype Company = Company(id: int, name: string, number: string, isActive: bool)

  /** The placeholder the ticket gets when no single company is found. */
  const Unresolved: Company := Company(0, "", "", true)

  /** The three company lookups the handler can issue, with the value each filters on. */
  datatype CompanyQuery =
    | IdEquals(id: string)
    | NumberOrAbbreviationEquals(value: string)
    | NameContains(value: string)

  const CompanyIdPrefix: string := "CompanyID:"
  const CompanyPrefix: string := "Company:"

  /** The id given by the first tag that mentions `CompanyID:`, with that text cut out and trimmed. */
  function CompanyIdTag(tags: seq<string>): Option<string>
  {
    var found := Filter(tags, HasText(CompanyIdPrefix));
    if found == [] then None else Some(Trim(ReplaceFirst(found[0], CompanyIdPrefix, "")))
  }

  /** The id tag, by position: the first tag that mentions `CompanyID:`, with
      that text cut out and trimmed; none when no tag mentions it. */
  lemma CompanyIdTagDerivation(tags: seq<string>)
    ensures CompanyIdTag(tags) == None <==> forall i :: 0 <= i < |tags| ==> !Includes(tags[i], CompanyIdPrefix)
    ensures forall j :: 0 <= j < |tags| && Includes(tags[j], CompanyIdPrefix)
                        && (forall i :: 0 <= i < j ==> !Includes(tags[i], CompanyIdPrefix)) ==>
              CompanyIdTag(tags) == Some(Trim(ReplaceFirst(tags[j], CompanyIdPrefix, "")))
  {
    var found := Filter(tags, HasText(CompanyIdPrefix));
    if forall i :: 0 <= i < |tags| ==> !Includes(tags[i], CompanyIdPrefix) {
      FilterNone(tags, HasText(CompanyIdPrefix));
    } else {
      var i :| 0 <= i < |tags| && Includes(tags[i], CompanyIdPrefix);
      assert tags[i] in found;
    }
    forall j | 0 <= j < |tags| && Includes(tags[j], CompanyIdPrefix)
               && (forall i :: 0 <= i < j ==> !Includes(tags[i], CompanyIdPrefix))
      ensures CompanyIdTag(tags) == Some(Trim(ReplaceFirst(tags[j], CompanyIdPrefix, "")))
    {
      FilterFirst(tags, HasText(CompanyIdPrefix), j);
    }
  }

  /** The part of a test name before its first `-`, else before its first space, else all of it. */
  function NamePrefix(name: string): string
  {
    var dash := IndexOf(name, '-');
    if dash == -1 then
      var space := IndexOf(name, ' ');
      if space == -1 then name else name[..space]
    else name[..dash]
  }

  /** The text the company lookups search for: the first `Company:` tag without
      that text, or else the prefix of the test name; always trimmed. */
  function CompanyProbe(tags: seq<string>, name: string): (probe: string)
    ensures IsTrimmed(probe)
  {
    var found := Filter(tags, HasText(CompanyPrefix));
    Trim(if found != [] then ReplaceFirst(found[0], CompanyPrefix, "") else NamePrefix(name))
  }

  /** How the probe is derived, case by case, in terms of positions in the tags and the name. */
  lemma ProbeDerivation(tags: seq<string>, name: string)
    ensures forall j :: 0 <= j < |tags| && Includes(tags[j], CompanyPrefix)
                        && (forall i :: 0 <= i < j ==> !Includes(tags[i], CompanyPrefix)) ==>
              CompanyProbe(tags, name) == Trim(ReplaceFirst(tags[j], CompanyPrefix, ""))
    ensures (forall i :: 0 <= i < |tags| ==> !Includes(tags[i], CompanyPrefix)) ==>
              && (forall j :: 0 <= j < |name| && name[j] == '-' && '-' !in name[..j] ==>
                    CompanyProbe(tags, name) == Trim(name[..j]))
              && ('-' !in name ==> forall j :: 0 <= j < |name| && name[j] == ' ' && ' ' !in name[..j] ==>
                    CompanyProbe(tags, name) == Trim(name[..j]))
              && ('-' !in name && ' ' !in name ==> CompanyProbe(tags, name) == Trim(name))
  {
    forall j | 0 <= j < |tags| && Includes(tags[j], CompanyPrefix)
               && (forall i :: 0 <= i < j ==> !Includes(tags[i], CompanyPrefix))
      ensures CompanyProbe(tags, name) == Trim(ReplaceFirst(tags[j], CompanyPrefix, ""))
    {
      FilterFirst(tags, HasText(CompanyPrefix), j);
    }
    if forall i :: 0 <= i < |tags| ==> !Includes(tags[i], CompanyPrefix) {
      FilterNone(tags, HasText(CompanyPrefix));
      forall j | 0 <= j < |name| && name[j] == '-' && '-' !in name[..j]
        ensures IndexOf(name, '-') == j
      {
        IndexOfAfter(name[..j], '-', name[j + 1..]);
        assert name == name[..j] + ['-'] + name[j + 1..];
      }
      if '-' !in name {
        forall j | 0 <= j < |name| && name[j] == ' ' && ' ' !in name[..j]
          ensures IndexOf(name, ' ') == j
        {
          IndexOfAfter(name[..j], ' ', name[j + 1..]);
          assert name == name[..j] + [' '] + name[j + 1..];
        }
      }
    }
  }

  /** The lookups issued, in order: by id when a `CompanyID:` tag is present;
      then, while nothing has been found and the probe is not empty, by number or
      abbreviation, then by name containment. */
  function Lookups(idTag: Option<string>, probe: string, directory: CompanyQuery -> seq<Company>): seq<CompanyQuery>
  {
    var byId := match idTag case None => [] case Some(id) => [IdEquals(id)];
    if probe == "" || (byId != [] && directory(byId[0]) != []) then byId
    else if directory(NumberOrAbbreviationEquals(probe)) != [] then byId + [NumberOrAbbreviationEquals(probe)]
    else byId + [NumberOrAbbreviationEquals(probe), NameContains(probe)]
  }

  /** The companies the last lookup returned (each lookup replaces the previous answer). */
  function Candidates(queries: seq<CompanyQuery>, directory: CompanyQuery -> seq<Company>): seq<Company>
  {
    if queries == [] then [] else directory(queries[|queries| - 1])
  }

  predicate IsActive(c: Company)
  {
    c.isActive
  }

  /** The company's name occurs in the test name, ignoring case. */
  function NamedIn(testName: string): Company -> bool
  {
    (c: Company) => IncludesIgnoringCase(testName, c.name)
  }

  /** Active candidates; when several, those named in the test name; when still several, none. */
  function Narrow(candidates: seq<Company>, testName: string): seq<Company>
  {
    var active := Filter(candidates, IsActive);
    if |active| > 1 then
      var named := Filter(active, NamedIn(testName));
      if |named| > 1 then [] else named
    else active
  }

  datatype Resolution = Resolution(company: Company, queries: seq<CompanyQuery>)

  /** The company a new ticket is filed under, and the lookups made to find it.
      Without a working ticketing-system connection nothing is looked up. */
  function ResolveCompany(tags: seq<string>, name: string, directory: CompanyQuery -> seq<Company>,
                          useApi: bool): Resolution
  {
    if !useApi then Resolution(Unresolved, [])
    else
      var queries := Lookups(CompanyIdTag(tags), CompanyProbe(tags, name), directory);
      var narrowed := Narrow(Candidates(queries, directory), name);
      Resolution(if |narrowed| == 1 then narrowed[0] else Unresolved, queries)
  }

  /** Narrowing keeps active candidates only, and all of them when at most one
      is active. When several are active but not exactly one of them is named
      in the test name, nothing usable is left. */
  lemma NarrowKeepsActive(candidates: seq<Company>, testName: string)
    ensures var narrowed := Narrow(candidates, testName);
            var active := Filter(candidates, IsActive);
            && (forall c :: c in narrowed ==> c in candidates && c.isActive)
            && (|active| <= 1 ==> narrowed == active)
            && (|active| > 1 && |Filter(active, NamedIn(testName))| != 1 ==> |narrowed| != 1)
  {
  }

  /** When several candidates are active and one survives, the test name
      contains its name and no other active candidate's. */
  lemma NarrowNamed(candidates: seq<Company>, testName: string)
    requires |Filter(candidates, IsActive)| > 1 && |Narrow(candidates, testName)| == 1
    ensures NamedIn(testName)(Narrow(candidates, testName)[0])
    ensures forall c :: c in candidates && c.isActive && NamedIn(testName)(c) ==>
              c == Narrow(candidates, testName)[0]
  {
    FilterTwiceOnly(candidates, IsActive, NamedIn(testName));
  }

  /** Exactly one company comes out. A real one is an active candidate of the
      last lookup; when several candidates were active it is the only active one
      whose name the test name contains, and that one is chosen whenever it
      exists. Zero active candidates, or several without exactly one named,
      give the placeholder. */
  lemma ResolutionOutcome(tags: seq<string>, name: string, directory: CompanyQuery -> seq<Company>, useApi: bool)
    ensures var r := ResolveCompany(tags, name, directory, useApi);
            var candidates := Candidates(r.queries, directory);
            var active := Filter(candidates, IsActive);
            && (!useApi ==> r == Resolution(Unresolved, []))
            && (r.company == Unresolved || (r.company in candidates && r.company.isActive))
            && (useApi && |active| == 0 ==> r.company == Unresolved)
            && (useApi && |active| == 1 ==> r.company == active[0])
            && (useApi && |active| > 1 && |Filter(active, NamedIn(name))| != 1 ==> r.company == Unresolved)
            && (useApi && |active| > 1 && |Filter(active, NamedIn(name))| == 1 ==>
                  r.company == Filter(active, NamedIn(name))[0])
            && (useApi && |active| > 1 && r.company != Unresolved ==>
                  && IncludesIgnoringCase(name, r.company.name)
                  && forall c :: c in candidates && c.isActive && IncludesIgnoringCase(name, c.name) ==> c == r.company)
  {
    if useApi {
      var queries := Lookups(CompanyIdTag(tags), CompanyProbe(tags, name), directory);
      var candidates := Candidates(queries, directory);
      NarrowKeepsActive(candidates, name);
      var narrowed := Narrow(candidates, name);
      if |narrowed| == 1 {
        assert narrowed[0] in narrowed;
        if |Filter(candidates, IsActive)| > 1 {
          NarrowNamed(candidates, name);
        }
      }
    }
  }

  /** A `CompanyID:` tag whose id lookup finds something settles the lookups:
      no name-based lookup follows. */
  lemma IdTagShortCircuits(id: string, probe: string, directory: CompanyQuery -> seq<Company>)
    requires directory(IdEquals(id)) != []
    ensures Lookups(Some(id), probe, directory) == [IdEquals(id)]
  {
  }

  /** A test whose only tag is `CompanyID:` followed by an id, and whose id
      lookup finds a company, is looked up by that id alone: no lookup by
      number, abbreviation or name follows. */
  lemma IdTagAlone(id: string, name: string, directory: CompanyQuery -> seq<Company>)
    requires IsTrimmed(id) && directory(IdEquals(id)) != []
    ensures CompanyIdTag([CompanyIdPrefix + id]) == Some(id)
    ensures ResolveCompany([CompanyIdPrefix + id], name, directory, true).queries == [IdEquals(id)]
  {
    var tag := CompanyIdPrefix + id;
    assert Includes(tag, CompanyIdPrefix) && ReplaceFirst(tag, CompanyIdPrefix, "") == id by {
      ReplaceFirstOfPrefix(CompanyIdPrefix, id);
    }
    assert CompanyIdTag([tag]) == Some(Trim(ReplaceFirst(tag, CompanyIdPrefix, ""))) by {
      CompanyIdTagDerivation([tag]);
    }
    TrimTrimmed(id);
    IdTagShortCircuits(id, CompanyProbe([tag], name), directory);
  }

  /** When neither the id lookup nor the exact number/abbreviation lookup finds
      anything, the name-containment lookup is issued with the probe and its
      answer is what gets narrowed. */
  lemma NameContainmentFallback(idTag: Option<string>, probe: string, directory: CompanyQuery -> seq<Company>)
    requires probe != ""
    requires idTag.Some? ==> directory(IdEquals(idTag.value)) == []
    requires directory(NumberOrAbbreviationEquals(probe)) == []
    ensures var queries := Lookups(idTag, probe, directory);
            && |queries| >= 2
            && queries[|queries| - 2..] == [NumberOrAbbreviationEquals(probe), NameContains(probe)]
            && Candidates(queries, directory) == directory(NameContains(probe))
  {
  }

  /** The lookups as the handler issues them, each answer replacing the last.
      `None` stands for "nothing looked up yet". */
  method LookUpCompanies(idTag: Option<string>, probe: string, directory: CompanyQuery -> seq<Company>)
    returns (queries: seq<CompanyQuery>, companies: Option<seq<Company>>)
    ensures queries == Lookups(idTag, probe, directory)
    ensures companies == if queries == [] then None else Some(Candidates(queries, directory))
  {
    queries := [];
    companies := None;
    if idTag.Some? {
      queries := queries + [IdEquals(idTag.value)];
      companies := Some(directory(IdEquals(idTag.value)));
    }
    if probe != "" && (companies.None? || companies.value == []) {
      queries := queries + [NumberOrAbbreviationEquals(probe)];
      companies := Some(directory(NumberOrAbbreviationEquals(probe)));
      if companies.value == [] {
        queries := queries + [NameContains(probe)];
        companies := Some(directory(NameContains(probe)));
      }
    }
  }

  /** The resolution as the handler performs it, reassigning its list of
      companies after each lookup and each filter. */
  method FindCompany(tags: seq<string>, name: string, directory: CompanyQuery -> seq<Company>, useApi: bool)
    returns (company: Company, queries: seq<CompanyQuery>)
    ensures Resolution(company, queries) == ResolveCompany(tags, name, directory, useApi)
  {
    queries := [];
    var companies: Option<seq<Company>> := None;
    if useApi {
      queries, companies := LookUpCompanies(CompanyIdTag(tags), CompanyProbe(tags, name), directory);
      if companies.Some? && |companies.value| > 0 {
        var active := Filter(companies.value, IsActive);
        companies := Some(active);
        if |active| > 1 {
          companies := Some(Filter(active, NamedIn(name)));
          if |companies.value| > 1 {
            companies := Some([]);
          }
        }
      }
      assert companies.Some? ==> companies.value == Narrow(Candidates(queries, directory), name);
    }
    if companies.None? || |companies.value| != 1 {
      company := Unresolved;
    } else {
      company := companies.value[0];
    }
  }
}
