/** The `PLANTS` species table and the `GARDENS` season lists. */
module Constants {
  import opened ConfigStore

  /** A species: its display label, its icon (named by its asset key), its
      spread and its size, in millimetres. */
  datatype Plant = Plant(displayLabel: string, icon: string, spread: real, size: real)

  /** `PLANTS` as its entries, in source order. */
  const PLANTS: seq<(string, Plant)> := [
    ("anaheimPepper", Plant("Anaheim Pepper", "anaheimPepper", 400.0, 150.0)),
    ("basil", Plant("Basil", "basil", 250.0, 160.0)),
    ("beet", Plant("Beet", "beet", 175.0, 150.0)),
    ("bibbLettuce", Plant("Bibb Lettuce", "bibbLettuce", 250.0, 200.0)),
    ("bokChoy", Plant("Bok Choy", "bokChoy", 210.0, 160.0)),
    ("broccoli", Plant("Broccoli", "broccoli", 375.0, 250.0)),
    ("carrot", Plant("Carrot", "carrot", 150.0, 125.0)),
    ("cauliflower", Plant("Cauliflower", "cauliflower", 400.0, 250.0)),
    ("chard", Plant("Swiss Chard", "chard", 300.0, 300.0)),
    ("cucumber", Plant("Cucumber", "cucumber", 400.0, 200.0)),
    ("eggplant", Plant("Eggplant", "eggplant", 400.0, 200.0)),
    ("hillbillyTomato", Plant("Hillbilly Tomato", "hillbillyTomato", 400.0, 200.0)),
    ("icicleRadish", Plant("Icicle Radish", "icicleRadish", 100.0, 100.0)),
    ("okra", Plant("Okra", "okra", 400.0, 200.0)),
    ("rainbowChard", Plant("Rainbow Chard", "rainbowChard", 250.0, 250.0)),
    ("redBellPepper", Plant("Red Bell Pepper", "redBellPepper", 350.0, 200.0)),
    ("redRussianKale", Plant("Red Russian Kale", "redRussianKale", 250.0, 200.0)),
    ("runnerBean", Plant("Runner Bean", "runnerBean", 350.0, 200.0)),
    ("snapPea", Plant("Snap Pea", "snapPea", 200.0, 150.0)),
    ("spinach", Plant("Spinach", "spinach", 250.0, 200.0)),
    ("sweetPotato", Plant("Sweet Potato", "sweetPotato", 400.0, 180.0)),
    ("zucchini", Plant("Zucchini", "zucchini", 400.0, 250.0))
  ]

  /** Every species of a table spreads between 100 and 400 and has a positive
      size. */
  predicate InRange(table: seq<(string, Plant)>) {
    forall i :: 0 <= i < |table| ==> 100.0 <= table[i].1.spread <= 400.0 && table[i].1.size > 0.0
  }

  /** The value stored under `key` in a record given as its entries;
      `None` is JavaScript's `undefined`. */
  function Lookup(table: seq<(string, Plant)>, key: string): (r: Option<Plant>)
    ensures InRange(table) && r.Some? ==> 100.0 <= r.value.spread <= 400.0 && r.value.size > 0.0
    decreases |table|
  {
    if |table| == 0 then None
    else if table[0].0 == key then Some(table[0].1)
    else
      assert InRange(table) ==> InRange(table[1..]) by {
        if InRange(table) {
          forall i | 0 <= i < |table[1..]| ensures 100.0 <= table[1..][i].1.spread <= 400.0 && table[1..][i].1.size > 0.0 {
            assert table[1..][i] == table[i + 1];
          }
        }
      }
      Lookup(table[1..], key)
  }

  /** The keys of a record given as its entries. */
  function Keys(table: seq<(string, Plant)>): (keys: seq<string>)
    ensures |keys| == |table|
    ensures forall i :: 0 <= i < |table| ==> keys[i] == table[i].0
  {
    seq(|table|, i requires 0 <= i < |table| => table[i].0)
  }

  const PLANT_KEYS: seq<string> := Keys(PLANTS)

  /** A key is found exactly when it is one of the record's keys, and what is
      found is an entry of the record. */
  lemma {:induction false} LookupFinds(table: seq<(string, Plant)>, key: string)
    ensures Lookup(table, key).Some? <==> key in Keys(table)
    ensures Lookup(table, key).Some? ==> (key, Lookup(table, key).value) in table
    decreases |table|
  {
    if |table| > 0 && table[0].0 != key {
      LookupFinds(table[1..], key);
      assert Keys(table) == [table[0].0] + Keys(table[1..]);
      assert table == [table[0]] + table[1..];
    }
  }

  /** With distinct keys, the lookup of the `i`-th key returns the `i`-th value. */
  lemma {:induction false} LookupAt(table: seq<(string, Plant)>, i: int)
    requires 0 <= i < |table|
    requires forall j, k :: 0 <= j < k < |table| ==> table[j].0 != table[k].0
    ensures Lookup(table, table[i].0) == Some(table[i].1)
    decreases i
  {
    if i > 0 {
      assert table[0].0 != table[i].0;
      LookupAt(table[1..], i - 1);
    }
  }

  /** Every entry of `PLANTS` spreads between 100 and 400 and has a positive
      size. */
  lemma TableInRange()
    ensures InRange(PLANTS)
  {
  }

  /** `PLANTS[key]`. */
  function PlantNamed(key: string): (r: Option<Plant>)
    ensures r.Some? ==> 100.0 <= r.value.spread <= 400.0 && r.value.size > 0.0
  {
    TableInRange();
    Lookup(PLANTS, key)
  }

  /** The spring list. */
  const SPRING: seq<string> := [
    "beet", "bibbLettuce", "broccoli", "carrot", "cauliflower", "rainbowChard",
    "icicleRadish", "redRussianKale", "bokChoy", "spinach", "snapPea"
  ]

  /** The summer list. */
  const SUMMER: seq<string> := [
    "anaheimPepper", "basil", "cucumber", "eggplant", "hillbillyTomato", "okra",
    "redBellPepper", "runnerBean", "sweetPotato", "zucchini"
  ]

  /** The two `sampleSize` draws behind the `minimal` and `random` lists. */
  datatype Draws = Draws(minimal: seq<string>, random: seq<string>)

  /** A draw of `n` distinct keys of `PLANTS`. */
  predicate IsSample(s: seq<string>, n: nat) {
    |s| == n &&
    (forall i, j :: 0 <= i < j < |s| ==> s[i] != s[j]) &&
    (forall i :: 0 <= i < |s| ==> s[i] in PLANT_KEYS)
  }

  /** What `sampleSize(Object.keys(PLANTS), 2)` and `(…, 10)` can return. */
  predicate ValidDraws(d: Draws) {
    IsSample(d.minimal, 2) && IsSample(d.random, 10)
  }

  /** `GARDENS[name]`. */
  function GardenNamed(name: string, d: Draws): Option<seq<string>> {
    if name == "spring" then Some(SPRING)
    else if name == "summer" then Some(SUMMER)
    else if name == "minimal" then Some(d.minimal)
    else if name == "random" then Some(d.random)
    else None
  }

  /** `GARDENS[name] || []`: an array is truthy even when empty, so only a
      missing list becomes `[]`. */
  function GardenPlants(name: string, d: Draws): (r: seq<string>)
    ensures !(name == "spring" || name == "summer" || name == "minimal" || name == "random") ==> r == []
    ensures ValidDraws(d) ==> forall i :: 0 <= i < |r| ==> r[i] in PLANT_KEYS
    ensures ValidDraws(d) ==>
      (r != [] <==> name == "spring" || name == "summer" || name == "minimal" || name == "random")
  {
    SeasonLists();
    match GardenNamed(name, d)
    case Some(list) => list
    case None => []
  }

  /** `PLANTS` has 22 species under pairwise distinct keys. */
  lemma PlantTableShape()
    ensures |PLANTS| == 22 && |PLANT_KEYS| == 22
    ensures forall i, j :: 0 <= i < j < |PLANTS| ==> PLANTS[i].0 != PLANTS[j].0
  {
  }

  /** The keys of `PLANTS` are exactly `PLANT_KEYS`, and the `i`-th key names
      the `i`-th species. */
  lemma PlantTable(key: string)
    ensures PlantNamed(key).Some? <==> key in PLANT_KEYS
    ensures forall i :: 0 <= i < |PLANTS| ==> PlantNamed(PLANT_KEYS[i]) == Some(PLANTS[i].1)
  {
    LookupFinds(PLANTS, key);
    PlantTableShape();
    forall i | 0 <= i < |PLANTS| ensures PlantNamed(PLANT_KEYS[i]) == Some(PLANTS[i].1) {
      LookupAt(PLANTS, i);
    }
  }

  /** Every species spreads between 100 and 400 and has a positive size. */
  lemma SpreadsInRange(key: string)
    requires key in PLANT_KEYS
    ensures PlantNamed(key).Some?
    ensures 100.0 <= PlantNamed(key).value.spread <= 400.0
    ensures PlantNamed(key).value.size > 0.0
  {
    PlantTable(key);
  }

  /** Every key of `PLANTS` starts with a lower-case letter. */
  lemma KeysStartLowerCase()
    ensures forall i :: 0 <= i < |PLANTS| ==> |PLANTS[i].0| > 0 && 'a' <= PLANTS[i].0[0] <= 'z'
  {
  }

  /** So no capitalised name, such as a species' display label, is a key. */
  lemma CapitalisedNameMissing(key: string)
    requires |key| > 0 && 'A' <= key[0] <= 'Z'
    ensures PlantNamed(key).None?
  {
    PlantTable(key);
    KeysStartLowerCase();
    forall i | 0 <= i < |PLANT_KEYS| ensures PLANT_KEYS[i] != key {
      assert PLANT_KEYS[i] == PLANTS[i].0;
    }
  }

  /** The spring list has 11 entries and the summer list 10, all of them keys
      of `PLANTS`. */
  lemma SeasonLists()
    ensures |SPRING| == 11 && |SUMMER| == 10
    ensures forall i :: 0 <= i < |SPRING| ==> SPRING[i] in PLANT_KEYS
    ensures forall i :: 0 <= i < |SUMMER| ==> SUMMER[i] in PLANT_KEYS
  {
    assert SPRING[0] == PLANT_KEYS[2];
    assert SPRING[1] == PLANT_KEYS[3];
    assert SPRING[2] == PLANT_KEYS[5];
    assert SPRING[3] == PLANT_KEYS[6];
    assert SPRING[4] == PLANT_KEYS[7];
    assert SPRING[5] == PLANT_KEYS[14];
    assert SPRING[6] == PLANT_KEYS[12];
    assert SPRING[7] == PLANT_KEYS[16];
    assert SPRING[8] == PLANT_KEYS[4];
    assert SPRING[9] == PLANT_KEYS[19];
    assert SPRING[10] == PLANT_KEYS[18];
    assert SUMMER[0] == PLANT_KEYS[0];
    assert SUMMER[1] == PLANT_KEYS[1];
    assert SUMMER[2] == PLANT_KEYS[9];
    assert SUMMER[3] == PLANT_KEYS[10];
    assert SUMMER[4] == PLANT_KEYS[11];
    assert SUMMER[5] == PLANT_KEYS[13];
    assert SUMMER[6] == PLANT_KEYS[15];
    assert SUMMER[7] == PLANT_KEYS[17];
    assert SUMMER[8] == PLANT_KEYS[20];
    assert SUMMER[9] == PLANT_KEYS[21];
  }

  /** `GARDENS` has exactly the lower-case keys spring, summer, minimal and
      random; there is no winter or fall list, and a capitalised season name is
      not a key. */
  lemma GardenKeys(name: string, d: Draws)
    ensures GardenNamed(name, d).Some? <==>
      name == "spring" || name == "summer" || name == "minimal" || name == "random"
    ensures GardenNamed("Spring", d).None? && GardenNamed("Summer", d).None?
    ensures GardenNamed("winter", d).None? && GardenNamed("fall", d).None?
  {
  }

  /** With valid draws, every list in `GARDENS` names species of `PLANTS`, and
      the two drawn lists have 2 and 10 distinct entries. */
  lemma GardensNamePlants(name: string, d: Draws)
    requires ValidDraws(d)
    ensures forall i :: 0 <= i < |GardenPlants(name, d)| ==> GardenPlants(name, d)[i] in PLANT_KEYS
    ensures |GardenPlants("minimal", d)| == 2 && |GardenPlants("random", d)| == 10
  {
    SeasonLists();
  }
}
