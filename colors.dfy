/** The bar colour of an article on the stock charts, after
    Scripts/prepare_dashboard_data.py: an exact lookup of the upper-cased
    article, then a rule on its prefix, then a colour picked by the article's
    hash. */
module Colors {
  import opened Options
  import opened Text

  const Teal: string := "#015054"
  const Brown: string := "#80651b"
  const Burgundy: string := "#78011b"

  /** The user-defined colours of known articles, keyed by upper-case article. */
  const ColorTable: map<string, string> := map[
    "SF0125" := "#614701",
    "SF0250" := Brown,
    "SF0500" := "#b38c24",
    "SF2500" := "#b38c24",
    "SM0250" := Burgundy,
    "SM0500" := Burgundy,
    "FSF300" := Teal
  ]

  /** The colours an unknown article is given, picked by its hash. */
  const Fallback: seq<string> := ["#6366f1", "#14b8a6", "#f97316", "#ef4444", "#22c55e"]

  /** The prefix rule on an upper-cased article: the `FSF` family is teal,
      `SF` brown and `SM` burgundy; any other article has no prefix colour. */
  function PrefixColor(u: string): (r: Option<string>)
    ensures r.Some? <==> StartsWith(u, "FSF") || StartsWith(u, "SF") || StartsWith(u, "SM")
    ensures StartsWith(u, "FSF") ==> r == Some(Teal)
    ensures !StartsWith(u, "FSF") && StartsWith(u, "SF") ==> r == Some(Brown)
    ensures !StartsWith(u, "FSF") && !StartsWith(u, "SF") && StartsWith(u, "SM") ==> r == Some(Burgundy)
  {
    if StartsWith(u, "FSF") then Some(Teal)
    else if StartsWith(u, "SF") then Some(Brown)
    else if StartsWith(u, "SM") then Some(Burgundy)
    else None
  }

  /** The article's colour is fixed by the article alone, without its hash:
      it is in the table or has a prefix colour. */
  predicate Known(article: string) {
    Upper(article) in ColorTable || PrefixColor(Upper(article)).Some?
  }

  /** `get_article_color(article)`; `articleHash` stands for `hash(article)`,
      which Python salts per process. Python's `%` by a positive number never
      gives a negative remainder, and neither does Dafny's. */
  function ArticleColor(article: string, articleHash: int): (r: string)
    ensures r in ColorTable.Values || r in Fallback
    ensures Upper(article) in ColorTable ==> r == ColorTable[Upper(article)]
    ensures Upper(article) !in ColorTable && PrefixColor(Upper(article)).Some? ==> r == PrefixColor(Upper(article)).value
    ensures !Known(article) ==> r == Fallback[articleHash % |Fallback|]
  {
    var u := Upper(article);
    if u in ColorTable then ColorTable[u]
    else match PrefixColor(u)
      case Some(c) => assert c in ColorTable.Values by { assert ColorTable["FSF300"] == Teal; assert ColorTable["SF0250"] == Brown; assert ColorTable["SM0250"] == Burgundy; } c
      case None => Fallback[articleHash % |Fallback|]
  }

  /** The hash is consulted only for unknown articles: a known article gets
      the same colour whatever its hash. */
  lemma HashOnlyForUnknown(article: string, h1: int, h2: int)
    requires Known(article)
    ensures ArticleColor(article, h1) == ArticleColor(article, h2)
  {
  }

  /** A known article's colour does not depend on letter case. */
  lemma {:induction false} KnownColorIgnoresCase(a: string, b: string, h1: int, h2: int)
    requires Upper(a) == Upper(b)
    requires Known(a)
    ensures Known(b)
    ensures ArticleColor(a, h1) == ArticleColor(b, h2)
  {
  }

  /** The table keeps to the prefix rule for every article but three, which
      are given their own shade. */
  lemma TableRefinesPrefixes()
    ensures forall u | u in ColorTable && u !in {"SF0125", "SF0500", "SF2500"} :: PrefixColor(u) == Some(ColorTable[u])
    ensures forall u | u in ColorTable :: PrefixColor(u).Some?
  {
    assert ColorTable.Keys == {"SF0125", "SF0250", "SF0500", "SF2500", "SM0250", "SM0500", "FSF300"};
    assert !StartsWith("SF0250", "FSF") by { assert "SF0250"[0] != "FSF"[0]; }
    assert !StartsWith("SM0250", "FSF") by { assert "SM0250"[0] != "FSF"[0]; }
    assert !StartsWith("SM0250", "SF") by { assert "SM0250"[1] != "SF"[1]; }
    assert !StartsWith("SM0500", "FSF") by { assert "SM0500"[0] != "FSF"[0]; }
    assert !StartsWith("SM0500", "SF") by { assert "SM0500"[1] != "SF"[1]; }
    assert PrefixColor("FSF300") == Some(Teal);
  }
}
