/**
 * The static catalog of specialisation domains (`DOMAINS`): five entries,
 * each with a display icon and a one-line description. Lookups follow
 * Python's `dict.get`, which yields nothing for a name outside the catalog.
 */
module Catalog {
  import opened Wrappers

  datatype Domain = Domain(name: string, icon: string, description: string)

  const Domains: seq<Domain> := [
    Domain("Sports", "\U{26BD}",
           "Analyze team stats, game history, and player performance."),
    Domain("Education", "\U{1F4DA}",
           "Create learning assistants from textbooks, notes, or research papers."),
    Domain("Art & Design", "\U{1F3A8}",
           "Interpret artistic styles, history, or design principles."),
    Domain("Entertainment", "\U{1F3AC}",
           "Discuss movies, music, celebrities, and pop culture trends."),
    Domain("Business", "\U{1F4BC}",
           "Handle customer FAQs, process financial reports, or analyze market data.")
  ]

  /** The catalog's keys. */
  function Names(): set<string> {
    set d | d in Domains :: d.name
  }

  /** No two catalog entries share a name, and every entry has an icon. */
  lemma CatalogWellFormed()
    ensures |Domains| == 5
    ensures forall i, j :: 0 <= i < j < |Domains| ==> Domains[i].name != Domains[j].name
    ensures forall d :: d in Domains ==> d.icon != "" && d.description != ""
  {
  }

  /** `DOMAINS.get(name)`: the entry stored under that key, if any. */
  function Lookup(name: string): Option<Domain> {
    if name == Domains[0].name then Some(Domains[0])
    else if name == Domains[1].name then Some(Domains[1])
    else if name == Domains[2].name then Some(Domains[2])
    else if name == Domains[3].name then Some(Domains[3])
    else if name == Domains[4].name then Some(Domains[4])
    else None
  }

  /** A lookup finds exactly the catalog's keys, each under its own entry. */
  lemma LookupFinds(name: string)
    ensures Lookup(name).Some? <==> name in Names()
    ensures Lookup(name).Some? ==> Lookup(name).value in Domains && Lookup(name).value.name == name
  {
  }

  /** `DOMAINS.get(name, {}).get("icon", "")`. */
  function Icon(name: string): string {
    match Lookup(name)
    case Some(d) => d.icon
    case None => ""
  }

  /** The icon is empty exactly for a name outside the catalog, and otherwise that entry's icon. */
  lemma IconOf(name: string)
    ensures Icon(name) == "" <==> name !in Names()
    ensures forall d :: d in Domains && d.name == name ==> Icon(name) == d.icon
  {
    CatalogWellFormed();
    LookupFinds(name);
  }

  /** The `domain_display` string: icon, a space, then the domain's name. */
  function Display(name: string): string {
    Icon(name) + " " + name
  }
}
