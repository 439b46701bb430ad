/** Which cluster (macro-region) a marketplace warehouse belongs to, after
    Scripts/prepare_dashboard_data.py: two ordered keyword tables, one per
    marketplace, searched for the first keyword that occurs in the lower-cased
    warehouse name. */
module Clusters {
  import opened Options
  import opened Text

  /** A table row: a cluster name and the keywords that select it. */
  datatype Cluster = Cluster(name: string, keywords: seq<string>)

  /** A keyword table in declaration order, which is the order Python's dict
      iterates in and so the order of the search. */
  type Table = seq<Cluster>

  /** The cluster of a warehouse that no keyword matches. */
  const Other: string := "Прочие"

  /** The Wildberries table. */
  const WbClusters: Table := [
    Cluster("Центральный", [
      "пушкино", "вёшки", "вешки", "иваново", "подольск", "радумля", "обухово",
      "чашниково", "воронеж", "истра", "коледино", "домодедово", "никольское", "тверь",
      "голицыно", "софьино", "ярославль", "цифровой", "рязань", "тюшевское",
      "сабурово", "владимир", "тула", "котовск", "электросталь", "белая дача",
      "щербинка", "чехов"
    ]),
    Cluster("Северо-Западный", ["вологда", "шушары", "красный бор", "санкт-петербург", "спб", "уткина"]),
    Cluster("Приволжский", ["ижевск", "кузнецк", "пенза", "самара", "новосемейкино", "сарапул", "казань"]),
    Cluster("Уральский", ["нижний тагил", "челябинск", "екатеринбург"]),
    Cluster("Южный + Северо-Кавказский", ["крыловская", "краснодар", "волгоград", "невинномысск", "тихорецкая"]),
    Cluster("Дальневосточный + Сибирский", ["хабаровск", "барнаул", "владивосток", "юрга", "новосибирск"]),
    Cluster("Казахстан", ["байсерке", "атакент", "актобе", "астана"]),
    Cluster("Беларусь", ["минск", "брест", "гродно"]),
    Cluster("Узбекистан", ["ташкент"]),
    Cluster("Армения", ["ереван"]),
    Cluster("Грузия", ["тбилиси"])
  ]

  /** The Ozon table. */
  const OzonClusters: Table := [
    Cluster("Москва, МО и Дальние регионы", [
      "хоругвино", "ногинск", "пушкино", "софьино", "радумля", "павло", "слободское",
      "петровское", "жуковский", "домодедово", "гривно"
    ]),
    Cluster("Санкт-Петербург и СЗО", ["колпино", "шушары", "волхонка", "санкт-петербург", "спб", "бугры"]),
    Cluster("Казань", ["казань", "кзн", "столбище", "нижний новгород"]),
    Cluster("Самара", ["самара"]),
    Cluster("Уфа", ["уфа"]),
    Cluster("Оренбург", ["оренбург"]),
    Cluster("Краснодар", ["адыгейск", "южный обход", "новороссийск"]),
    Cluster("Ростов", ["ростов"]),
    Cluster("Воронеж", ["воронеж"]),
    Cluster("Саратов", ["волгоград", "саратов"]),
    Cluster("Невинномысск", ["невинномысск"]),
    Cluster("Махачкала", ["махачкала"]),
    Cluster("Красноярск", ["красноярск"]),
    Cluster("Новосибирск", ["новосибирск"]),
    Cluster("Омск", ["омск"]),
    Cluster("Екатеринбург", ["екатеринбург"]),
    Cluster("Пермь", ["пермь"]),
    Cluster("Тюмень", ["тюмень"]),
    Cluster("Дальний Восток", ["хабаровск"]),
    Cluster("Тверь", ["тверь"]),
    Cluster("Ярославль", ["ярославль"]),
    Cluster("Калининград", ["калининград"]),
    Cluster("Беларусь", ["минск"]),
    Cluster("Астана", ["астана"]),
    Cluster("Алматы", ["алматы"]),
    Cluster("Армения", ["ереван"])
  ]

  /** Only the exact marketplace name `"wb"` selects the Wildberries table;
      any other value selects the Ozon one. */
  function TableFor(mpType: string): (t: Table)
    ensures mpType == "wb" ==> t == WbClusters
    ensures mpType != "wb" ==> t == OzonClusters
  {
    if mpType == "wb" then WbClusters else OzonClusters
  }

  /** Some keyword of `c` occurs in `name`. */
  predicate Matches(c: Cluster, name: string) {
    exists k | k in c.keywords :: Contains(name, k)
  }

  /** The inner loop of the search: the keywords of one cluster tried in turn. */
  function AnyKeyword(keywords: seq<string>, name: string): (b: bool)
    ensures b <==> exists k | k in keywords :: Contains(name, k)
  {
    if |keywords| == 0 then false
    else
      var rest := AnyKeyword(keywords[1..], name);
      assert Contains(name, keywords[0]) ==> keywords[0] in keywords;
      assert rest ==> exists k | k in keywords :: Contains(name, k);
      assert (exists k | k in keywords :: Contains(name, k)) ==> Contains(name, keywords[0]) || rest;
      Contains(name, keywords[0]) || rest
  }

  /** The outer loop of the search from row `i` on: the first row that matches. */
  function FirstMatch(table: Table, name: string, i: nat): (r: Option<nat>)
    requires i <= |table|
    ensures r.Some? ==> i <= r.value < |table| && Matches(table[r.value], name)
    ensures r.Some? ==> forall j | i <= j < r.value :: !Matches(table[j], name)
    ensures r.None? ==> forall j | i <= j < |table| :: !Matches(table[j], name)
    decreases |table| - i
  {
    if i == |table| then None
    else if AnyKeyword(table[i].keywords, name) then Some(i)
    else FirstMatch(table, name, i + 1)
  }

  /** `r` is the name of the first cluster of `table`, in declaration order,
      one of whose keywords occurs in `name`, or `Other` when there is none. */
  ghost predicate FirstClusterIs(table: Table, name: string, r: string) {
    || (exists i | 0 <= i < |table| ::
          && table[i].name == r
          && Matches(table[i], name)
          && forall j | 0 <= j < i :: !Matches(table[j], name))
    || (r == Other && forall j | 0 <= j < |table| :: !Matches(table[j], name))
  }

  /** The search over the whole of `table`. */
  function Search(table: Table, name: string): (r: string)
    ensures FirstClusterIs(table, name, r)
  {
    match FirstMatch(table, name, 0)
    case Some(i) => table[i].name
    case None => Other
  }

  /** `get_warehouse_cluster(warehouse_name, mp_type)`. */
  function WarehouseCluster(warehouseName: string, mpType: string): (r: string)
    ensures FirstClusterIs(TableFor(mpType), Lower(warehouseName), r)
    ensures r == Other || exists c | c in TableFor(mpType) :: c.name == r
  {
    var r := Search(TableFor(mpType), Lower(warehouseName));
    assert r != Other ==> exists i | 0 <= i < |TableFor(mpType)| :: TableFor(mpType)[i].name == r;
    r
  }

  /** The description pins the result down: the search is the only answer
      that fits it. */
  lemma FirstClusterPinned(table: Table, name: string, r: string)
    requires FirstClusterIs(table, name, r)
    ensures r == Search(table, name)
  {
    match FirstMatch(table, name, 0)
    case Some(i0) =>
      assert Matches(table[i0], name);
      var i :| 0 <= i < |table| && table[i].name == r && Matches(table[i], name)
               && forall j | 0 <= j < i :: !Matches(table[j], name);
      assert !(i < i0) && !(i0 < i);
    case None =>
      forall i | 0 <= i < |table| ensures !Matches(table[i], name) { }
  }

  /** So two answers that fit the description are the same answer. */
  lemma FirstClusterUnique(table: Table, name: string, r1: string, r2: string)
    requires FirstClusterIs(table, name, r1) && FirstClusterIs(table, name, r2)
    ensures r1 == r2
  {
    FirstClusterPinned(table, name, r1);
    FirstClusterPinned(table, name, r2);
  }

  /** The names of a table are distinct (they are the keys of a dict) and
      none of them is `Other`. */
  ghost predicate WellNamed(table: Table) {
    && (forall i, j | 0 <= i < j < |table| :: table[i].name != table[j].name)
    && (forall i | 0 <= i < |table| :: table[i].name != Other)
  }

  /** The Wildberries names differ pairwise in length or first letter. */
  lemma WbWellNamed()
    ensures WellNamed(WbClusters)
  {
    var t := WbClusters;
    forall i, j | 0 <= i < j < |t| ensures t[i].name != t[j].name {
      assert |t[i].name| != |t[j].name| || t[i].name[0] != t[j].name[0];
    }
  }

  lemma OzonWellNamed()
    ensures WellNamed(OzonClusters)
  {
    OzonNamesApartA();
    OzonNamesApartB();
    OzonNamesApartC();
    OzonNamesApartD();
    OzonNamesApartE();
    OzonNoneOther();
  }

  /** No Ozon name is `Other`: none has its length and first letter. */
  lemma OzonNoneOther()
    ensures forall i | 0 <= i < |OzonClusters| :: OzonClusters[i].name != Other
  {
    var t := OzonClusters;
    forall i | 0 <= i < |t| ensures t[i].name != Other {
      assert |t[i].name| != |Other| || t[i].name[0] != Other[0];
    }
  }

  /** The Ozon names differ pairwise: each pair differs in length or in one of
      its first two letters (in the first group length alone tells them apart;
      only the last group has a pair that agrees in both length and first
      letter). The pairs are checked in five groups by
      the position of the earlier name. */
  lemma OzonNamesApartA()
    ensures forall i, j | 0 <= i < 2 && i < j < |OzonClusters| :: OzonClusters[i].name != OzonClusters[j].name
  {
    var t := OzonClusters;
    forall i, j | 0 <= i < 2 && i < j < |t| ensures t[i].name != t[j].name {
      assert |t[i].name| != |t[j].name|;
    }
  }

  lemma OzonNamesApartB()
    ensures forall i, j | 2 <= i < 5 && i < j < |OzonClusters| :: OzonClusters[i].name != OzonClusters[j].name
  {
    var t := OzonClusters;
    forall i, j | 2 <= i < 5 && i < j < |t| ensures t[i].name != t[j].name {
      assert |t[i].name| != |t[j].name| || t[i].name[0] != t[j].name[0];
    }
  }

  lemma OzonNamesApartC()
    ensures forall i, j | 5 <= i < 9 && i < j < |OzonClusters| :: OzonClusters[i].name != OzonClusters[j].name
  {
    var t := OzonClusters;
    forall i, j | 5 <= i < 9 && i < j < |t| ensures t[i].name != t[j].name {
      assert |t[i].name| != |t[j].name| || t[i].name[0] != t[j].name[0];
    }
  }

  lemma OzonNamesApartD()
    ensures forall i, j | 9 <= i < 14 && i < j < |OzonClusters| :: OzonClusters[i].name != OzonClusters[j].name
  {
    var t := OzonClusters;
    forall i, j | 9 <= i < 14 && i < j < |t| ensures t[i].name != t[j].name {
      assert |t[i].name| != |t[j].name| || t[i].name[0] != t[j].name[0];
    }
  }

  lemma OzonNamesApartE()
    ensures forall i, j | 14 <= i < 26 && i < j < |OzonClusters| :: OzonClusters[i].name != OzonClusters[j].name
  {
    var t := OzonClusters;
    forall i, j | 14 <= i < 26 && i < j < |t| ensures t[i].name != t[j].name {
      assert |t[i].name| != |t[j].name| || t[i].name[0] != t[j].name[0] || t[i].name[1] != t[j].name[1];
    }
  }

  /** The result is `Other` exactly when no keyword of the selected table
      occurs in the lower-cased name. */
  lemma OtherIffNoMatch(warehouseName: string, mpType: string)
    ensures WarehouseCluster(warehouseName, mpType) == Other
            <==> forall j | 0 <= j < |TableFor(mpType)| :: !Matches(TableFor(mpType)[j], Lower(warehouseName))
  {
    WbWellNamed();
    OzonWellNamed();
    var r := WarehouseCluster(warehouseName, mpType);
    var table, name := TableFor(mpType), Lower(warehouseName);
    if r != Other {
      var i :| 0 <= i < |table| && table[i].name == r && Matches(table[i], name);
    }
  }

  /** Names that differ only in letter case resolve to the same cluster. */
  lemma CaseInsensitive(a: string, b: string, mpType: string)
    requires |a| == |b|
    requires forall i | 0 <= i < |a| :: LowerChar(a[i]) == LowerChar(b[i])
    ensures WarehouseCluster(a, mpType) == WarehouseCluster(b, mpType)
  {
    assert Lower(a) == Lower(b);
  }

  /** In particular, an upper-cased name resolves as the name itself. */
  lemma UpperCaseResolvesAlike(warehouseName: string, mpType: string)
    ensures WarehouseCluster(Upper(warehouseName), mpType) == WarehouseCluster(warehouseName, mpType)
  {
    LowerUpper(warehouseName);
  }
}
