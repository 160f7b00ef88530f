/**
 Which rows `collect_account_evidence` (`linkedin/crm_v2_evidence.py`) takes for one account. Names and
 domains arrive normalized, "" when there is none.
 */
module AccountIdentity {
  import opened AccountForest

  datatype Row = Row(name: string, domain: string)

  datatype Lead = Lead(id: int, row: Row)

  datatype Opportunity = Opportunity(row: Row, contacts: seq<int>)

  function NameToken(name: string): string { "name:" + name }

  function DomainToken(domain: string): string { "domain:" + domain }

  predicate IsName(token: string) { |token| >= 5 && token[..5] == "name:" }

  predicate IsDomain(token: string) { |token| >= 7 && token[..7] == "domain:" }

  // The token a row is filed under: its domain, else its name, else "".
  function Primary(row: Row): string {
    if row.domain != "" then DomainToken(row.domain) else if row.name != "" then NameToken(row.name) else ""
  }

  function Rows(leads: seq<Lead>, opportunities: seq<Opportunity>): (rows: seq<Row>)
    ensures |rows| == |leads| + |opportunities|
    ensures forall i | 0 <= i < |leads| :: rows[i] == leads[i].row
    ensures forall i | 0 <= i < |opportunities| :: rows[|leads| + i] == opportunities[i].row
    decreases |leads|, |opportunities|
  {
    if leads != [] then [leads[0].row] + Rows(leads[1..], opportunities)
    else if opportunities != [] then [opportunities[0].row] + Rows([], opportunities[1..])
    else []
  }

  // Every business domain observed beside a name.
  function DomainsOf(rows: seq<Row>, name: string): set<string> {
    set row | row in rows && row.name == name && row.domain != "" :: row.domain
  }

  // A name joins a domain only when it was observed with exactly that one.
  predicate Tied(rows: seq<Row>, name: string, domain: string) {
    name != "" && DomainsOf(rows, name) == {domain}
  }

  ghost function RowJoins(rows: seq<Row>, row: Row): Edges {
    set d | d in DomainsOf(rows, row.name) && Tied(rows, row.name, d) :: (NameToken(row.name), DomainToken(d))
  }

  ghost function LeadJoins(rows: seq<Row>, leads: seq<Lead>): Edges {
    if leads == [] then {} else LeadJoins(rows, leads[..|leads| - 1]) + RowJoins(rows, leads[|leads| - 1].row)
  }

  function LeadTokens(leads: seq<Lead>): map<int, string> {
    if leads == [] then map[]
    else
      var lead, before := leads[|leads| - 1], LeadTokens(leads[..|leads| - 1]);
      if Primary(lead.row) == "" then before else before[lead.id := Primary(lead.row)]
  }

  function ContactLinks(row: Row, contacts: seq<int>, tokens: map<int, string>): Edges {
    if Primary(row) == "" then {} else set c | c in contacts && c in tokens :: (Primary(row), tokens[c])
  }

  ghost function OpportunityJoins(rows: seq<Row>, opportunities: seq<Opportunity>): Edges {
    if opportunities == [] then {}
    else OpportunityJoins(rows, opportunities[..|opportunities| - 1]) + RowJoins(rows, opportunities[|opportunities| - 1].row)
  }

  function Links(opportunities: seq<Opportunity>, tokens: map<int, string>): Edges {
    if opportunities == [] then {}
    else
      var last := opportunities[|opportunities| - 1];
      Links(opportunities[..|opportunities| - 1], tokens) + ContactLinks(last.row, last.contacts, tokens)
  }

  ghost function NameJoins(leads: seq<Lead>, opportunities: seq<Opportunity>): Edges {
    var rows := Rows(leads, opportunities);
    LeadJoins(rows, leads) + OpportunityJoins(rows, opportunities)
  }

  ghost predicate Filed(parent: map<string, string>, tokens: map<int, string>) {
    && (forall id | id in tokens :: tokens[id] in parent)
    && (forall t | t in parent :: IsName(t) || IsDomain(t))
  }

  // ------------------------------------------------------------- the collection

  lemma TokenKinds(text: string)
    ensures IsName(NameToken(text)) && IsDomain(DomainToken(text)) && NameToken(text)[5..] == text
  {
  }

  lemma RowJoinsExactly(rows: seq<Row>, row: Row)
    ensures row.name != "" && |DomainsOf(rows, row.name)| == 1 ==>
              forall d | d in DomainsOf(rows, row.name) :: RowJoins(rows, row) == {(NameToken(row.name), DomainToken(d))}
    ensures row.name == "" || |DomainsOf(rows, row.name)| != 1 ==> RowJoins(rows, row) == {}
  {
    forall d | d in DomainsOf(rows, row.name) && |DomainsOf(rows, row.name)| == 1 ensures DomainsOf(rows, row.name) == {d} {
      OnlyOne(DomainsOf(rows, row.name), d);
    }
  }

  lemma DomainsGrow(rows: seq<Row>, row: Row, name: string)
    ensures DomainsOf(rows + [row], name)
         == DomainsOf(rows, name) + if row.name == name && row.domain != "" then {row.domain} else {}
  {
  }

  type Observed = map<string, set<string>>

  function Domains(observed: Observed, name: string): set<string> {
    if name in observed then observed[name] else {}
  }

  ghost predicate Observes(observed: Observed, rows: seq<Row>) {
    forall name | name != "" :: Domains(observed, name) == DomainsOf(rows, name)
  }

  lemma ObservesGrow(observed: Observed, rows: seq<Row>, row: Row)
    requires Observes(observed, rows)
    ensures Observes(if row.name != "" && row.domain != "" then observed[row.name := Domains(observed, row.name) + {row.domain}]
                     else observed, rows + [row])
  {
    var observed1 := if row.name != "" && row.domain != "" then observed[row.name := Domains(observed, row.name) + {row.domain}]
                     else observed;
    forall name | name != "" ensures Domains(observed1, name) == DomainsOf(rows + [row], name) {
      DomainsGrow(rows, row, name);
      assert Domains(observed, name) == DomainsOf(rows, name);
    }
  }

  class Collector {
    const forest: UnionFind

    constructor ()
      ensures fresh(forest) && forest.Valid() && forest.parent == map[] && forest.edges == {}
    {
      forest := new UnionFind();
    }

    // The first pass: which domains each name was observed with.
    method Observe(rows: seq<Row>) returns (observed: Observed)
      ensures Observes(observed, rows)
    {
      observed := map[];
      var i := 0;
      while i < |rows|
        invariant 0 <= i <= |rows| && Observes(observed, rows[..i])
      {
        assert rows[..i + 1] == rows[..i] + [rows[i]];
        var row := rows[i];
        ObservesGrow(observed, rows[..i], row);
        if row.name != "" && row.domain != "" {
          observed := observed[row.name := Domains(observed, row.name) + {row.domain}];
        }
        i := i + 1;
      }
      assert rows[..i] == rows;
    }

    method FileTokens(row: Row)
      requires forest.Valid() && Filed(forest.parent, map[])
      modifies forest
      ensures forest.Valid() && Filed(forest.parent, map[]) && old(forest.parent).Keys <= forest.parent.Keys
      ensures forest.edges == old(forest.edges)
      ensures Primary(row) != "" ==> Primary(row) in forest.parent
    {
      hide StandsFor, NameToken, DomainToken, IsName, IsDomain;
      if row.name != "" {
        TokenKinds(row.name);
        forest.Add(NameToken(row.name));
      }
      if row.domain != "" {
        TokenKinds(row.domain);
        forest.Add(DomainToken(row.domain));
      }
    }

    // The second pass over one row: its tokens, and its name joined to the name's only domain.
    method File(observed: Observed, ghost rows: seq<Row>, row: Row)
      requires forest.Valid() && Filed(forest.parent, map[]) && Observes(observed, rows)
      modifies forest
      ensures forest.Valid() && Filed(forest.parent, map[]) && old(forest.parent).Keys <= forest.parent.Keys
      ensures forest.edges == old(forest.edges) + RowJoins(rows, row)
      ensures Primary(row) != "" ==> Primary(row) in forest.parent
    {
      hide StandsFor, DomainsOf, RowJoins, NameToken, DomainToken, IsName, IsDomain, Primary;
      RowJoinsExactly(rows, row);
      FileTokens(row);
      var ds := Domains(observed, row.name);
      if row.name != "" && |ds| == 1 {
        var d :| d in ds;
        TokenKinds(row.name);
        TokenKinds(d);
        forest.Union(NameToken(row.name), DomainToken(d));
      }
    }

    method LinkContacts(row: Row, contacts: seq<int>, tokens: map<int, string>)
      requires forest.Valid() && Filed(forest.parent, tokens) && (Primary(row) != "" ==> Primary(row) in forest.parent)
      modifies forest
      ensures forest.Valid() && Filed(forest.parent, tokens) && old(forest.parent).Keys <= forest.parent.Keys
      ensures forest.edges == old(forest.edges) + ContactLinks(row, contacts, tokens)
    {
      hide StandsFor, Primary, IsName, IsDomain;
      if Primary(row) == "" {
        return;
      }
      var i := 0;
      while i < |contacts|
        invariant 0 <= i <= |contacts| && forest.Valid() && Filed(forest.parent, tokens)
        invariant old(forest.parent).Keys <= forest.parent.Keys
        invariant forest.edges == old(forest.edges) + ContactLinks(row, contacts[..i], tokens)
      {
        LinksGrow(row, contacts[..i], contacts[i], tokens);
        assert contacts[..i + 1] == contacts[..i] + [contacts[i]];
        if contacts[i] in tokens {
          forest.Union(Primary(row), tokens[contacts[i]]);
        }
        i := i + 1;
      }
      assert contacts[..i] == contacts;
    }

    method FileLeads(observed: Observed, ghost rows: seq<Row>, leads: seq<Lead>) returns (tokens: map<int, string>)
      requires forest.Valid() && forest.parent == map[] && forest.edges == {} && Observes(observed, rows)
      modifies forest
      ensures forest.Valid() && Filed(forest.parent, tokens) && tokens == LeadTokens(leads)
      ensures forest.edges == LeadJoins(rows, leads)
    {
      hide StandsFor, Observes, RowJoins, Primary, IsName, IsDomain;
      tokens := map[];
      var i := 0;
      while i < |leads|
        invariant 0 <= i <= |leads| && forest.Valid() && tokens == LeadTokens(leads[..i]) && Filed(forest.parent, tokens)
        invariant forest.edges == LeadJoins(rows, leads[..i])
      {
        var lead := leads[i];
        assert leads[..i + 1][..i] == leads[..i];
        File(observed, rows, lead.row);
        if Primary(lead.row) != "" {
          tokens := tokens[lead.id := Primary(lead.row)];
        }
        i := i + 1;
      }
      assert leads[..i] == leads;
    }

    method FileOpportunities(observed: Observed, ghost rows: seq<Row>, opportunities: seq<Opportunity>, tokens: map<int, string>)
      requires forest.Valid() && Filed(forest.parent, tokens) && Observes(observed, rows)
      modifies forest
      ensures forest.Valid() && Filed(forest.parent, tokens)
      ensures forest.edges == old(forest.edges) + OpportunityJoins(rows, opportunities) + Links(opportunities, tokens)
      ensures forall o | o in opportunities && Primary(o.row) != "" :: Primary(o.row) in forest.parent
    {
      hide StandsFor, Observes, RowJoins, ContactLinks, Primary, IsName, IsDomain;
      var j := 0;
      while j < |opportunities|
        invariant 0 <= j <= |opportunities| && forest.Valid() && Filed(forest.parent, tokens)
        invariant forest.edges == old(forest.edges) + OpportunityJoins(rows, opportunities[..j]) + Links(opportunities[..j], tokens)
        invariant forall o | o in opportunities[..j] && Primary(o.row) != "" :: Primary(o.row) in forest.parent
      {
        var o := opportunities[j];
        assert opportunities[..j + 1][..j] == opportunities[..j];
        assert opportunities[..j + 1] == opportunities[..j] + [o];
        File(observed, rows, o.row);
        LinkContacts(o.row, o.contacts, tokens);
        j := j + 1;
      }
      assert opportunities[..j] == opportunities;
    }

    // The whole construction: leads, opportunities with their contacts, then the configured names.
    method Collect(leads: seq<Lead>, opportunities: seq<Opportunity>, names: seq<string>) returns (tokens: map<int, string>)
      requires forest.Valid() && forest.parent == map[] && forest.edges == {}
      modifies forest
      ensures forest.Valid() && Filed(forest.parent, tokens) && tokens == LeadTokens(leads)
      ensures forest.edges == NameJoins(leads, opportunities) + Links(opportunities, tokens)
      ensures forall o | o in opportunities && Primary(o.row) != "" :: Primary(o.row) in forest.parent
      ensures forall name | name in names && name != "" :: NameToken(name) in forest.parent
    {
      hide StandsFor, Observes, LeadJoins, OpportunityJoins, Links, LeadTokens, Primary, IsName, IsDomain, NameToken;
      var rows := Rows(leads, opportunities);
      var observed := Observe(rows);
      tokens := FileLeads(observed, rows, leads);
      FileOpportunities(observed, rows, opportunities, tokens);
      ghost var filed := forest.parent.Keys;
      var k := 0;
      while k < |names|
        invariant 0 <= k <= |names| && forest.Valid() && Filed(forest.parent, tokens) && filed <= forest.parent.Keys
        invariant forest.edges == NameJoins(leads, opportunities) + Links(opportunities, tokens)
        invariant forall name | name in names[..k] && name != "" :: NameToken(name) in forest.parent
      {
        assert names[..k + 1] == names[..k] + [names[k]];
        if names[k] != "" {
          TokenKinds(names[k]);
          forest.Add(NameToken(names[k]));
        }
        k := k + 1;
      }
      assert names[..k] == names;
    }
  }

  lemma LinksGrow(row: Row, contacts: seq<int>, c: int, tokens: map<int, string>)
    ensures ContactLinks(row, contacts + [c], tokens) == ContactLinks(row, contacts, tokens) + ContactLinks(row, [c], tokens)
    ensures Primary(row) != "" ==> ContactLinks(row, [c], tokens) == if c in tokens then {(Primary(row), tokens[c])} else {}
  {
  }

  lemma OnlyOne<T>(s: set<T>, x: T)
    requires |s| == 1 && x in s
    ensures s == {x}
  {
    assert |s - {x}| == 0;
  }

  // ------------------------------------------------------ what an account may merge

  // A tied name stands for its domain; every other token stands for itself.
  ghost function Canon(rows: seq<Row>, token: string): string {
    if IsName(token) && |DomainsOf(rows, token[5..])| == 1 && token[5..] != "" then
      var d :| d in DomainsOf(rows, token[5..]);
      DomainToken(d)
    else token
  }

  lemma CanonTied(rows: seq<Row>, name: string, d: string)
    requires Tied(rows, name, d)
    ensures Canon(rows, NameToken(name)) == DomainToken(d)
  {
    assert NameToken(name)[5..] == name && d in DomainsOf(rows, name);
  }

  lemma CanonDomain(rows: seq<Row>, d: string)
    ensures Canon(rows, DomainToken(d)) == DomainToken(d)
  {
    assert DomainToken(d)[0] == 'd';
  }

  lemma {:induction false} LeadJoinsExactly(rows: seq<Row>, leads: seq<Lead>, e: (string, string))
    ensures e in LeadJoins(rows, leads) <==> exists i :: 0 <= i < |leads| && e in RowJoins(rows, leads[i].row)
  {
    if leads != [] {
      LeadJoinsExactly(rows, leads[..|leads| - 1], e);
    }
  }

  lemma {:induction false} OpportunityJoinsExactly(rows: seq<Row>, opportunities: seq<Opportunity>, e: (string, string))
    ensures e in OpportunityJoins(rows, opportunities)
       <==> exists i :: 0 <= i < |opportunities| && e in RowJoins(rows, opportunities[i].row)
  {
    if opportunities != [] {
      OpportunityJoinsExactly(rows, opportunities[..|opportunities| - 1], e);
    }
  }

  // A row that has a token: its domain if it has one, otherwise its name.
  predicate FiledAs(row: Row, token: string) {
    if row.domain != "" then token == "domain:" + row.domain else row.name != "" && token == "name:" + row.name
  }

  // The last row of lead `id` that has a token.
  ghost predicate Speaks(leads: seq<Lead>, id: int, i: nat) {
    && i < |leads| && leads[i].id == id && (leads[i].row.domain != "" || leads[i].row.name != "")
    && forall j | i < j < |leads| && leads[j].id == id :: leads[j].row.domain == "" && leads[j].row.name == ""
  }

  // A lead is known by the token of its row, and has none exactly when its row has none.
  lemma {:induction false} LeadTokensExactly(leads: seq<Lead>, id: int, token: string)
    ensures var tokens := LeadTokens(leads);
            (id in tokens && tokens[id] == token) <==> exists i: nat :: Speaks(leads, id, i) && FiledAs(leads[i].row, token)
  {
    if leads != [] {
      var n := |leads| - 1;
      LeadTokensExactly(leads[..n], id, token);
      SpeaksAsLast(leads, id, token);
      hide Speaks;
    }
  }

  lemma SpeaksAsLast(leads: seq<Lead>, id: int, token: string)
    requires leads != []
    ensures var n, last := |leads| - 1, leads[|leads| - 1];
            (exists i: nat :: Speaks(leads, id, i) && FiledAs(leads[i].row, token)) <==>
              if last.id == id && Primary(last.row) != "" then token == Primary(last.row)
              else exists i: nat :: Speaks(leads[..n], id, i) && FiledAs(leads[..n][i].row, token)
  {
    var n, last := |leads| - 1, leads[|leads| - 1];
    SpeaksLast(leads, id);
    hide Speaks;
    if last.id == id && Primary(last.row) != "" {
      assert FiledAs(last.row, token) <==> token == Primary(last.row);
    } else {
      hide FiledAs, Primary;
      assert forall i: nat | i < n :: leads[..n][i] == leads[i];
    }
  }

  // The last row decides alone if it has a token of this lead, and otherwise leaves it to the rows before.
  lemma SpeaksLast(leads: seq<Lead>, id: int)
    requires leads != []
    ensures var n, last := |leads| - 1, leads[|leads| - 1];
            var here := last.id == id && (last.row.domain != "" || last.row.name != "");
            && (here ==> forall i: nat :: Speaks(leads, id, i) <==> i == n)
            && (!here ==> forall i: nat :: Speaks(leads, id, i) <==> i < n && Speaks(leads[..n], id, i))
  {
    var n := |leads| - 1;
    forall i: nat | i < n && Speaks(leads[..n], id, i) && !(leads[n].id == id && (leads[n].row.domain != "" || leads[n].row.name != ""))
      ensures Speaks(leads, id, i)
    {
      forall j | i < j < |leads| && leads[j].id == id ensures leads[j].row.domain == "" && leads[j].row.name == "" {
        if j < n { assert leads[..n][j] == leads[j]; }
      }
    }
    forall i: nat | i < n && Speaks(leads, id, i) ensures Speaks(leads[..n], id, i) {
      forall j | i < j < n && leads[..n][j].id == id ensures leads[..n][j].row.domain == "" && leads[..n][j].row.name == "" {
        assert leads[..n][j] == leads[j];
      }
    }
  }

  // Opportunity `i` with token `a` has a contact with token `b`.
  ghost predicate Names(opportunities: seq<Opportunity>, tokens: map<int, string>, a: string, b: string, i: nat) {
    i < |opportunities| && FiledAs(opportunities[i].row, a)
    && exists c :: c in opportunities[i].contacts && c in tokens && tokens[c] == b
  }

  // The links are exactly those from an opportunity's token to the tokens of its contacts.
  lemma {:induction false} LinksExactly(opportunities: seq<Opportunity>, tokens: map<int, string>, a: string, b: string)
    ensures (a, b) in Links(opportunities, tokens) <==> exists i: nat :: Names(opportunities, tokens, a, b, i)
  {
    if opportunities != [] {
      var n := |opportunities| - 1;
      LinksExactly(opportunities[..n], tokens, a, b);
      ContactLinksExactly(opportunities[n], tokens, a, b);
      NamesGrow(opportunities, tokens, a, b);
      hide ContactLinks, Names, FiledAs;
    }
  }

  lemma NamesGrow(opportunities: seq<Opportunity>, tokens: map<int, string>, a: string, b: string)
    requires opportunities != []
    ensures var n := |opportunities| - 1;
            (exists i: nat :: Names(opportunities, tokens, a, b, i)) <==>
              || (exists i: nat :: Names(opportunities[..n], tokens, a, b, i))
              || (FiledAs(opportunities[n].row, a) && exists c :: c in opportunities[n].contacts && c in tokens && tokens[c] == b)
  {
    hide FiledAs;
    var n := |opportunities| - 1;
    if i: nat :| Names(opportunities[..n], tokens, a, b, i) { assert Names(opportunities, tokens, a, b, i); }
    if i: nat :| Names(opportunities, tokens, a, b, i) {
      if i < n { assert Names(opportunities[..n], tokens, a, b, i); }
    }
    if FiledAs(opportunities[n].row, a) && exists c :: c in opportunities[n].contacts && c in tokens && tokens[c] == b {
      assert Names(opportunities, tokens, a, b, n);
    }
  }

  lemma ContactLinksExactly(o: Opportunity, tokens: map<int, string>, a: string, b: string)
    ensures (a, b) in ContactLinks(o.row, o.contacts, tokens) <==>
              FiledAs(o.row, a) && exists c :: c in o.contacts && c in tokens && tokens[c] == b
  {
    if c :| c in o.contacts && c in tokens && tokens[c] == b {
      assert Primary(o.row) != "" ==> (Primary(o.row), tokens[c]) in ContactLinks(o.row, o.contacts, tokens);
    }
  }

  // An opportunity and its contacts always end in one account.
  lemma ContactsBelong(leads: seq<Lead>, opportunities: seq<Opportunity>, i: nat, k: nat, a: string, b: string)
    requires i < |opportunities| && FiledAs(opportunities[i].row, a)
    requires k < |leads| && leads[k].id in opportunities[i].contacts && Speaks(leads, leads[k].id, k) && FiledAs(leads[k].row, b)
    ensures Together(NameJoins(leads, opportunities) + Links(opportunities, LeadTokens(leads)), a, b)
  {
    var tokens := LeadTokens(leads);
    LeadTokensExactly(leads, leads[k].id, b);
    LinksExactly(opportunities, tokens, a, b);
    assert Names(opportunities, tokens, a, b, i);
    hide Links, LeadTokens, NameJoins;
    TogetherByJoin(NameJoins(leads, opportunities) + Links(opportunities, tokens), a, b);
  }

  lemma {:induction false} RowsAre(leads: seq<Lead>, opportunities: seq<Opportunity>, i: nat)
    requires i < |Rows(leads, opportunities)|
    ensures if i < |leads| then Rows(leads, opportunities)[i] == leads[i].row
            else i - |leads| < |opportunities| && Rows(leads, opportunities)[i] == opportunities[i - |leads|].row
  {
  }

  // Names join exactly the domain they are tied to.
  lemma {:induction false} NameJoinsExactly(leads: seq<Lead>, opportunities: seq<Opportunity>, e: (string, string))
    ensures var rows := Rows(leads, opportunities);
            e in NameJoins(leads, opportunities) <==> exists n, d :: Tied(rows, n, d) && e == (NameToken(n), DomainToken(d))
  {
    var rows := Rows(leads, opportunities);
    LeadJoinsExactly(rows, leads, e);
    OpportunityJoinsExactly(rows, opportunities, e);
    hide Rows, NameToken, DomainToken, LeadJoins, OpportunityJoins;
    if n, d :| Tied(rows, n, d) && e == (NameToken(n), DomainToken(d)) {
      assert d in DomainsOf(rows, n);
      var i :| 0 <= i < |rows| && rows[i].name == n && rows[i].domain == d;
      assert e in RowJoins(rows, rows[i]);
      RowsAre(leads, opportunities, i);
    }
  }

  ghost function Mapped(rows: seq<Row>, links: Edges): Edges {
    set e | e in links :: (Canon(rows, e.0), Canon(rows, e.1))
  }

  lemma {:induction false} CanonJoined(leads: seq<Lead>, opportunities: seq<Opportunity>, token: string)
    ensures var c := Canon(Rows(leads, opportunities), token); c == token || (token, c) in NameJoins(leads, opportunities)
  {
    hide Rows, NameJoins, Path;
    var rows := Rows(leads, opportunities);
    var c := Canon(rows, token);
    if c != token {
      var n := token[5..];
      var d :| d in DomainsOf(rows, n) && c == DomainToken(d);
      OnlyOne(DomainsOf(rows, n), d);
      assert Tied(rows, n, d) && token == NameToken(n);
      NameJoinsExactly(leads, opportunities, (token, c));
    }
  }

  lemma {:induction false} CanonTogether(leads: seq<Lead>, opportunities: seq<Opportunity>, edges: Edges, token: string)
    requires NameJoins(leads, opportunities) <= edges
    ensures Together(edges, token, Canon(Rows(leads, opportunities), token))
  {
    hide Rows, NameJoins, Path, Canon;
    CanonJoined(leads, opportunities, token);
    TogetherByJoin(edges, token, Canon(Rows(leads, opportunities), token));
  }

  // One account, exactly: two tokens are merged precisely when contact links lead from one to the other,
  // reading every tied name as its domain.
  lemma {:induction false} AccountsExactly(leads: seq<Lead>, opportunities: seq<Opportunity>, links: Edges, x: string, y: string)
    ensures var rows := Rows(leads, opportunities);
            && (Together(NameJoins(leads, opportunities) + links, x, y)
                <==> Together(Mapped(rows, links), Canon(rows, x), Canon(rows, y)))
  {
    var rows := Rows(leads, opportunities);
    var names, target := NameJoins(leads, opportunities), Mapped(rows, links);
    var edges := names + links;
    if Together(edges, x, y) {
      forall e | e in edges ensures Together(target, Canon(rows, e.0), Canon(rows, e.1)) {
        if e in links {
          assert (Canon(rows, e.0), Canon(rows, e.1)) in target;
        } else {
          NameJoinsExactly(leads, opportunities, e);
          var n, d :| Tied(rows, n, d) && e == (NameToken(n), DomainToken(d));
          CanonTied(rows, n, d);
          CanonDomain(rows, d);
        }
        TogetherByJoin(target, Canon(rows, e.0), Canon(rows, e.1));
      }
      var p :| Path(edges, p) && p[0] == x && p[|p| - 1] == y;
      TogetherMaps(edges, target, t => Canon(rows, t), p);
    }
    if Together(target, Canon(rows, x), Canon(rows, y)) {
      forall e | e in target ensures Together(edges, e.0, e.1) {
        var a, b :| (a, b) in links && e == (Canon(rows, a), Canon(rows, b));
        CanonTogether(leads, opportunities, edges, a);
        CanonTogether(leads, opportunities, edges, b);
        TogetherByJoin(edges, a, b);
        TogetherTurns(edges, a, e.0);
        TogetherJoins(edges, e.0, a, b);
        TogetherJoins(edges, e.0, b, e.1);
      }
      var p :| Path(target, p) && p[0] == Canon(rows, x) && p[|p| - 1] == Canon(rows, y);
      TogetherMaps(target, edges, t => t, p);
      CanonTogether(leads, opportunities, edges, x);
      CanonTogether(leads, opportunities, edges, y);
      TogetherTurns(edges, y, Canon(rows, y));
      TogetherJoins(edges, x, Canon(rows, x), Canon(rows, y));
      TogetherJoins(edges, x, Canon(rows, y), y);
    }
  }

  // Display names alone never merge two business domains.
  lemma DomainsStayApart(leads: seq<Lead>, opportunities: seq<Opportunity>, d: string, e: string)
    requires Together(NameJoins(leads, opportunities), DomainToken(d), DomainToken(e))
    ensures d == e
  {
    var rows, names := Rows(leads, opportunities), NameJoins(leads, opportunities);
    assert names + {} == names;
    AccountsExactly(leads, opportunities, {}, DomainToken(d), DomainToken(e));
    CanonDomain(rows, d);
    CanonDomain(rows, e);
    assert Mapped(rows, {}) == {};
    var p :| Path({}, p) && p[0] == DomainToken(d) && p[|p| - 1] == DomainToken(e);
    Unmoved(p);
    assert DomainToken(d)[7..] == d && DomainToken(e)[7..] == e;
  }

  lemma {:induction false} Unmoved(p: seq<string>)
    requires Path({}, p)
    ensures p[0] == p[|p| - 1]
    decreases |p|
  {
    if |p| > 1 {
      assert Path({}, p[..|p| - 1]);
      Unmoved(p[..|p| - 1]);
      assert Touch({}, p[|p| - 2], p[|p| - 1]);
    }
  }

  // An account that holds a business domain is keyed by a domain.
  lemma {:induction false} DomainKeysTheAccount(parent: map<string, string>, edges: Edges, x: string, d: string)
    requires StandsFor(parent, edges) && Filed(parent, map[]) && x in parent && DomainToken(d) in parent
    requires Together(edges, x, DomainToken(d))
    ensures IsDomain(Root(parent, x))
  {
    hide StandsFor, IsName, IsDomain, DomainToken;
    StandsIsForest(parent, edges);
    RootIsLeast(parent, edges, x, DomainToken(d));
    NamesComeLater(Root(parent, x), d);
  }

  lemma {:induction false} NamesComeLater(token: string, d: string)
    ensures IsName(token) ==> !Leq(token, DomainToken(d))
  {
    assert DomainToken(d)[0] == 'd';
    assert IsName(token) ==> token[..5][0] == 'n';
  }
}
