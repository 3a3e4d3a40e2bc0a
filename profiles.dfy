/** The profile service (src/services/supabaseService.ts): accounts, the shop,
    equipment and the stored leaderboard, kept in the browser's key-value
    storage. The storage is modelled as a map from player name to profile
    plus the leaderboard list; serialisation is not modelled. */
module Profiles {
  import opened Wrappers
  import opened Constants
  import opened Sequences
  import opened Leaderboard

  /** Item identifiers are the source's string ids; casts between the id
      unions are unchecked there, so they are plain strings here. */
  type ItemId = string

  const ROBOT: ItemId := "robot"
  const STICKMAN: ItemId := "stickman"
  const TOP_HAT: ItemId := "top_hat"
  const SUNGLASSES: ItemId := "sunglasses"

  datatype Category = Skins | Accessories | PowerUps

  datatype ShopItem = ShopItem(id: ItemId, name: string, price: int, category: Category, description: string)

  /** The shop catalogue, in display order. */
  const SHOP_ITEMS: seq<ShopItem> := [
    ShopItem(ROBOT, "Robot", 0, Skins, "The default schematic."),
    ShopItem(STICKMAN, "Stickman", 500, Skins, "A lightweight, agile design."),
    ShopItem(TOP_HAT, "Top Hat", 150, Accessories, "For the distinguished engineer."),
    ShopItem(SUNGLASSES, "Sunglasses", 200, Accessories, "Boosts operational coolness.")
  ]

  datatype User = User(
    name: string,
    isAdmin: bool,
    coins: int,
    highScore: int,
    ownedSkins: seq<ItemId>,
    ownedAccessories: seq<ItemId>,
    equippedSkin: ItemId,
    equippedAccessories: seq<ItemId>)

  /** `items.find(i => i.id === id)`: the first item with that id. */
  function FindItem(items: seq<ShopItem>, id: ItemId): (r: Option<ShopItem>)
    ensures r.None? <==> forall i :: 0 <= i < |items| ==> items[i].id != id
    ensures r.Some? ==> exists i :: 0 <= i < |items| && items[i] == r.value && r.value.id == id
                         && forall j :: 0 <= j < i ==> items[j].id != id
  {
    if items == [] then None
    else if items[0].id == id then Some(items[0])
    else
      var r := FindItem(items[1..], id);
      assert r.Some? ==> exists i :: 1 <= i < |items| && items[i] == r.value && r.value.id == id
                                && forall j :: 0 <= j < i ==> items[j].id != id by {
        if r.Some? {
          var i :| 0 <= i < |items[1..]| && items[1..][i] == r.value && r.value.id == id
                   && forall j :: 0 <= j < i ==> items[1..][j].id != id;
          assert items[i + 1] == r.value;
          assert forall j :: 0 <= j < i + 1 ==> items[j].id != id by {
            forall j | 0 <= j < i + 1 ensures items[j].id != id {
              if j > 0 { assert items[j] == items[1..][j - 1]; }
            }
          }
        }
      }
      r
  }

  /** Every catalogue id is listed once. */
  lemma ShopIdsDistinct()
    ensures Distinct(seq(|SHOP_ITEMS|, i requires 0 <= i < |SHOP_ITEMS| => SHOP_ITEMS[i].id))
  {
    var ids := seq(|SHOP_ITEMS|, i requires 0 <= i < |SHOP_ITEMS| => SHOP_ITEMS[i].id);
    assert ids == [ROBOT, STICKMAN, TOP_HAT, SUNGLASSES];
    forall i, j | 0 <= i < j < 4 ensures ids[i] != ids[j] {
      assert ids[i][1] != ids[j][1] || ids[i][0] != ids[j][0];
    }
  }

  /** Each catalogue id is found with its own entry and price. */
  lemma ShopCatalogue()
    ensures FindItem(SHOP_ITEMS, STICKMAN) == Some(SHOP_ITEMS[1]) && SHOP_ITEMS[1].price == 500
    ensures FindItem(SHOP_ITEMS, TOP_HAT) == Some(SHOP_ITEMS[2]) && SHOP_ITEMS[2].price == 150
    ensures FindItem(SHOP_ITEMS, SUNGLASSES) == Some(SHOP_ITEMS[3]) && SHOP_ITEMS[3].price == 200
    ensures FindItem(SHOP_ITEMS, ROBOT) == Some(SHOP_ITEMS[0]) && SHOP_ITEMS[0].price == 0
  {
    var rest1, rest2, rest3 := SHOP_ITEMS[1..], SHOP_ITEMS[2..], SHOP_ITEMS[3..];
    assert rest1[1..] == rest2 && rest2[1..] == rest3;
    assert rest1[0] == SHOP_ITEMS[1] && rest2[0] == SHOP_ITEMS[2] && rest3[0] == SHOP_ITEMS[3];
    assert ROBOT[0] == 'r' && STICKMAN[0] == 's' && TOP_HAT[0] == 't' && SUNGLASSES[0] == 's';
    assert STICKMAN[1] != SUNGLASSES[1];
    assert FindItem(SHOP_ITEMS, STICKMAN) == FindItem(rest1, STICKMAN);
    assert FindItem(SHOP_ITEMS, TOP_HAT) == FindItem(rest1, TOP_HAT) == FindItem(rest2, TOP_HAT);
    assert FindItem(SHOP_ITEMS, SUNGLASSES) == FindItem(rest1, SUNGLASSES) == FindItem(rest2, SUNGLASSES)
        == FindItem(rest3, SUNGLASSES);
  }

  /** Lower-casing of ASCII letters; every other character is kept. For the
      comparison against "admin" this agrees with the platform's full Unicode
      lower-casing: no character outside A-Z lower-cases to one of the
      letters a, d, i, m, n. */
  function LowerChar(c: char): (r: char)
    ensures 'A' <= c <= 'Z' ==> r as int == c as int + 32
    ensures !('A' <= c <= 'Z') ==> r == c
  {
    if 'A' <= c <= 'Z' then (c as int + 32) as char else c
  }

  function Lower(s: string): (r: string)
    ensures |r| == |s|
    ensures forall i :: 0 <= i < |s| ==> r[i] == LowerChar(s[i])
  {
    if s == [] then [] else [LowerChar(s[0])] + Lower(s[1..])
  }

  /** `name.toLowerCase() === 'admin'`. */
  predicate IsAdminName(name: string) {
    Lower(name) == "admin"
  }

  /** Exactly the five-letter names spelling "admin" in any mix of cases are
      administrator names. */
  lemma AdminNames(name: string)
    ensures IsAdminName(name) <==>
            |name| == 5 && forall i :: 0 <= i < 5 ==> name[i] == "admin"[i] || name[i] == "ADMIN"[i]
  {
    var low := Lower(name);
    if IsAdminName(name) {
      forall i | 0 <= i < 5 ensures name[i] == "admin"[i] || name[i] == "ADMIN"[i] {
        assert LowerChar(name[i]) == "admin"[i];
      }
    }
    if |name| == 5 && forall i :: 0 <= i < 5 ==> name[i] == "admin"[i] || name[i] == "ADMIN"[i] {
      forall i | 0 <= i < 5 ensures low[i] == "admin"[i] {
        assert low[i] == LowerChar(name[i]);
      }
      assert low == "admin";
    }
  }

  const NEW_USER_COINS: int := 100
  const ADMIN_COINS: int := 99999

  /** The profile a first login creates. */
  function NewUser(name: string): (u: User)
    ensures u.name == name && u.highScore == 0
    ensures u.isAdmin <==> IsAdminName(name)
    ensures u.coins == if u.isAdmin then ADMIN_COINS else NEW_USER_COINS
    ensures u.equippedSkin == ROBOT && u.equippedAccessories == []
    ensures ROBOT in u.ownedSkins
    ensures u.isAdmin ==> STICKMAN in u.ownedSkins && TOP_HAT in u.ownedAccessories && SUNGLASSES in u.ownedAccessories
    ensures !u.isAdmin ==> u.ownedSkins == [ROBOT] && u.ownedAccessories == []
  {
    var isAdmin := IsAdminName(name);
    User(name, isAdmin, if isAdmin then ADMIN_COINS else NEW_USER_COINS, 0,
         if isAdmin then [ROBOT, STICKMAN] else [ROBOT],
         if isAdmin then [TOP_HAT, SUNGLASSES] else [],
         ROBOT, [])
  }

  /** No item is listed twice in a profile's lists. */
  predicate UserValid(u: User) {
    Distinct(u.ownedSkins) && Distinct(u.ownedAccessories) && Distinct(u.equippedAccessories)
  }

  lemma NewUserValid(name: string)
    ensures UserValid(NewUser(name))
  {
  }

  function MaxInt(a: int, b: int): int { if a >= b then a else b }

  /** The profile update after a run: the best score is kept and the coins
      earned are added. */
  function SaveProgress(u: User, score: int, coinsEarned: int): (r: User)
    ensures r.highScore >= u.highScore && r.highScore >= score
    ensures r.highScore == u.highScore || r.highScore == score
    ensures r.coins - u.coins == coinsEarned
    ensures r.(highScore := u.highScore, coins := u.coins) == u
  {
    u.(highScore := MaxInt(u.highScore, score), coins := u.coins + coinsEarned)
  }

  /** A purchase of a catalogue item the profile can afford: the price is
      always paid; the item is added to the owned list of its category only
      when it is not already there. */
  function Buy(u: User, item: ShopItem): (r: User)
    requires u.coins >= item.price
    ensures r.coins == u.coins - item.price && r.coins >= 0
    ensures item.category == Skins ==> item.id in r.ownedSkins && r.ownedAccessories == u.ownedAccessories
    ensures item.category == Accessories ==> item.id in r.ownedAccessories && r.ownedSkins == u.ownedSkins
    ensures item.category == PowerUps ==> r.ownedSkins == u.ownedSkins && r.ownedAccessories == u.ownedAccessories
    ensures item.id in u.ownedSkins ==> r.ownedSkins == u.ownedSkins
    ensures item.id in u.ownedAccessories ==> r.ownedAccessories == u.ownedAccessories
    ensures r.(coins := u.coins, ownedSkins := u.ownedSkins, ownedAccessories := u.ownedAccessories) == u
  {
    var paid := u.(coins := u.coins - item.price);
    if item.category == Skins && item.id !in paid.ownedSkins then
      paid.(ownedSkins := paid.ownedSkins + [item.id])
    else if item.category == Accessories && item.id !in paid.ownedAccessories then
      paid.(ownedAccessories := paid.ownedAccessories + [item.id])
    else paid
  }

  /** Buying never lists an item twice. */
  lemma BuyKeepsValid(u: User, item: ShopItem)
    requires UserValid(u) && u.coins >= item.price
    ensures UserValid(Buy(u, item))
  {
  }

  /** Buying an item already owned still costs its price and changes nothing else. */
  lemma BuyOwnedSkinOnlyCharges(u: User, item: ShopItem)
    requires u.coins >= item.price && item.category == Skins && item.id in u.ownedSkins
    ensures Buy(u, item) == u.(coins := u.coins - item.price)
  {
  }

  datatype EquipKind = SkinSlot | AccessorySlot

  /** Equip a skin (replacing the current one), or toggle an accessory: taken
      off when worn, put on last otherwise. Ownership is not checked. */
  function Equip(u: User, id: ItemId, kind: EquipKind): (r: User)
    ensures kind == SkinSlot ==> r == u.(equippedSkin := id)
    ensures kind == AccessorySlot ==> r.equippedSkin == u.equippedSkin
    ensures r.(equippedSkin := u.equippedSkin, equippedAccessories := u.equippedAccessories) == u
  {
    match kind
    case SkinSlot => u.(equippedSkin := id)
    case AccessorySlot =>
      if id in u.equippedAccessories then
        u.(equippedAccessories := Filter(u.equippedAccessories, (a: ItemId) => a != id))
      else u.(equippedAccessories := u.equippedAccessories + [id])
  }

  /** Toggling an accessory flips whether it is worn and leaves every other
      accessory as it was. */
  lemma EquipAccessoryToggles(u: User, id: ItemId)
    ensures id in Equip(u, id, AccessorySlot).equippedAccessories <==> id !in u.equippedAccessories
    ensures forall a :: a != id ==>
              (a in Equip(u, id, AccessorySlot).equippedAccessories <==> a in u.equippedAccessories)
  {
    var keep := (a: ItemId) => a != id;
    if id in u.equippedAccessories {
      forall a | a != id && a in u.equippedAccessories
        ensures a in Filter(u.equippedAccessories, keep)
      {
        FilterKeeps(u.equippedAccessories, keep, a);
      }
    }
  }

  /** Toggling the same accessory twice restores what is worn. */
  lemma {:induction false} EquipTwiceRestores(u: User, id: ItemId)
    ensures forall a :: a in Equip(Equip(u, id, AccessorySlot), id, AccessorySlot).equippedAccessories
                        <==> a in u.equippedAccessories
    ensures id !in u.equippedAccessories ==> Equip(Equip(u, id, AccessorySlot), id, AccessorySlot) == u
  {
    var once := Equip(u, id, AccessorySlot);
    EquipAccessoryToggles(u, id);
    EquipAccessoryToggles(once, id);
    if id !in u.equippedAccessories {
      var keep := (a: ItemId) => a != id;
      FilterSnoc(u.equippedAccessories, id, keep);
      FilterAll(u.equippedAccessories, keep);
    }
  }

  /** Equipping never wears an accessory twice. */
  lemma EquipKeepsValid(u: User, id: ItemId, kind: EquipKind)
    requires UserValid(u)
    ensures UserValid(Equip(u, id, kind))
  {
    if kind == AccessorySlot && id in u.equippedAccessories {
      FilterDistinct(u.equippedAccessories, (a: ItemId) => a != id);
    }
  }

  /** The coins a run earns: `Math.floor(score / COIN_CONVERSION_RATE)`
      (src/screens/GameOverScreen.tsx). */
  function CoinsEarned(score: int): (r: int)
    ensures COIN_CONVERSION_RATE * r <= score < COIN_CONVERSION_RATE * (r + 1)
    ensures score >= 0 ==> r >= 0
  {
    score / COIN_CONVERSION_RATE
  }

  /** The end-of-run save with the reward the game-over screen computes: a
      non-negative score never costs coins or lowers the best score. */
  lemma RunRewardNeverLoses(u: User, score: int)
    requires score >= 0
    ensures SaveProgress(u, score, CoinsEarned(score)).coins >= u.coins
    ensures SaveProgress(u, score, CoinsEarned(score)).highScore >= u.highScore
  {
  }

  /** Everything the storage holds. */
  datatype StoreState = StoreState(users: map<string, User>, leaderboard: seq<Entry>)

  /** Each profile is stored under its own name and lists nothing twice. */
  predicate StoreValid(st: StoreState) {
    forall n :: n in st.users ==> st.users[n].name == n && UserValid(st.users[n])
  }

  /** `loginOrRegister`: the stored profile, or a new one that is stored. */
  function Login(st: StoreState, name: string): (User, StoreState) {
    if name in st.users then (st.users[name], st)
    else (NewUser(name), st.(users := st.users[name := NewUser(name)]))
  }

  const USER_NOT_FOUND := "User not found"
  const CANNOT_PURCHASE := "Cannot complete purchase"

  /** `saveUserProgress`: fails for an unknown name; otherwise records the run
      on the profile and on the leaderboard. */
  function Save(st: StoreState, name: string, score: int, coinsEarned: int): (Result<User>, StoreState) {
    if name !in st.users then (Failure(USER_NOT_FOUND), st)
    else
      var u := SaveProgress(st.users[name], score, coinsEarned);
      (Success(u), StoreState(st.users[name := u], Merge(st.leaderboard, Entry(name, score))))
  }

  /** `purchaseItem`: fails for an unknown name, an id not in the catalogue or
      a price above the balance. */
  function Purchase(st: StoreState, name: string, id: ItemId): (Result<User>, StoreState) {
    var item := FindItem(SHOP_ITEMS, id);
    if name !in st.users || item.None? || st.users[name].coins < item.value.price then
      (Failure(CANNOT_PURCHASE), st)
    else
      var u := Buy(st.users[name], item.value);
      (Success(u), st.(users := st.users[name := u]))
  }

  /** `equipItem`: fails for an unknown name. */
  function EquipFor(st: StoreState, name: string, id: ItemId, kind: EquipKind): (Result<User>, StoreState) {
    if name !in st.users then (Failure(USER_NOT_FOUND), st)
    else
      var u := Equip(st.users[name], id, kind);
      (Success(u), st.(users := st.users[name := u]))
  }

  /** Login returns a stored profile unchanged and touches nothing; otherwise
      it stores the new profile and nothing else; a second login returns the
      same profile. */
  lemma LoginSpec(st: StoreState, name: string)
    ensures name in st.users ==> Login(st, name) == (st.users[name], st)
    ensures name !in st.users ==> Login(st, name).0 == NewUser(name)
    ensures Login(st, name).1.users == st.users[name := Login(st, name).0]
    ensures Login(st, name).1.leaderboard == st.leaderboard
    ensures Login(Login(st, name).1, name) == (Login(st, name).0, Login(st, name).1)
    ensures StoreValid(st) ==> StoreValid(Login(st, name).1)
  {
    NewUserValid(name);
  }

  /** Saving progress fails exactly for unknown names, in which case nothing
      changes; otherwise the profile's best score never drops, the coins
      grow by what was earned and the leaderboard takes the run. */
  lemma SaveSpec(st: StoreState, name: string, score: int, coinsEarned: int)
    ensures Save(st, name, score, coinsEarned).0.Failure? <==> name !in st.users
    ensures name !in st.users ==> Save(st, name, score, coinsEarned).1 == st
    ensures name in st.users ==>
              var (r, st') := Save(st, name, score, coinsEarned);
              r.value.highScore == MaxInt(st.users[name].highScore, score)
              && r.value.coins == st.users[name].coins + coinsEarned
              && st'.users == st.users[name := r.value]
              && st'.leaderboard == Merge(st.leaderboard, Entry(name, score))
    ensures StoreValid(st) ==> StoreValid(Save(st, name, score, coinsEarned).1)
  {
  }

  /** A purchase fails exactly when the profile or item is missing or the
      balance is short, and then nothing changes; a success costs exactly the
      price, leaves a non-negative balance and lists no item twice. */
  lemma PurchaseSpec(st: StoreState, name: string, id: ItemId)
    ensures Purchase(st, name, id).0.Success? <==>
              name in st.users && FindItem(SHOP_ITEMS, id).Some?
              && st.users[name].coins >= FindItem(SHOP_ITEMS, id).value.price
    ensures Purchase(st, name, id).0.Failure? ==> Purchase(st, name, id).1 == st
    ensures Purchase(st, name, id).0.Success? ==>
              var (r, st') := Purchase(st, name, id);
              r.value.coins == st.users[name].coins - FindItem(SHOP_ITEMS, id).value.price
              && r.value.coins >= 0
              && st'.users == st.users[name := r.value] && st'.leaderboard == st.leaderboard
    ensures StoreValid(st) ==> StoreValid(Purchase(st, name, id).1)
  {
    var item := FindItem(SHOP_ITEMS, id);
    if name in st.users && item.Some? && st.users[name].coins >= item.value.price && StoreValid(st) {
      BuyKeepsValid(st.users[name], item.value);
    }
  }

  /** Equipping fails exactly for unknown names; otherwise only that profile changes. */
  lemma EquipForSpec(st: StoreState, name: string, id: ItemId, kind: EquipKind)
    ensures EquipFor(st, name, id, kind).0.Failure? <==> name !in st.users
    ensures name !in st.users ==> EquipFor(st, name, id, kind).1 == st
    ensures name in st.users ==>
              EquipFor(st, name, id, kind).1.users == st.users[name := Equip(st.users[name], id, kind)]
    ensures StoreValid(st) ==> StoreValid(EquipFor(st, name, id, kind).1)
  {
    if name in st.users && StoreValid(st) {
      EquipKeepsValid(st.users[name], id, kind);
    }
  }

  /** The browser storage the service reads and writes. */
  class LocalStore {
    var users: map<string, User>
    var leaderboard: seq<Entry>

    function View(): StoreState
      reads this
    {
      StoreState(users, leaderboard)
    }

    constructor ()
      ensures View() == StoreState(map[], [])
      ensures StoreValid(View())
    {
      users := map[];
      leaderboard := [];
    }

    /** `getUser`: the stored profile, if any. */
    method GetUser(name: string) returns (u: Option<User>)
      ensures u.Some? <==> name in users
      ensures u.Some? ==> u.value == users[name]
    {
      u := if name in users then Some(users[name]) else None;
    }

    /** `updateUser`: store a profile under its own name. */
    method UpdateUser(u: User)
      modifies this
      ensures users == old(users)[u.name := u] && leaderboard == old(leaderboard)
    {
      users := users[u.name := u];
    }

    /** `updateLeaderboard`. */
    method UpdateLeaderboard(name: string, score: int)
      modifies this
      ensures leaderboard == Merge(old(leaderboard), Entry(name, score)) && users == old(users)
    {
      leaderboard := Merge(leaderboard, Entry(name, score));
    }

    method LoginOrRegister(name: string) returns (u: User)
      requires StoreValid(View())
      modifies this
      ensures (u, View()) == Login(old(View()), name)
    {
      var existing := GetUser(name);
      if existing.Some? {
        return existing.value;
      }
      u := NewUser(name);
      UpdateUser(u);
    }

    method SaveUserProgress(name: string, score: int, coinsEarned: int) returns (r: Result<User>)
      requires StoreValid(View())
      modifies this
      ensures (r, View()) == Save(old(View()), name, score, coinsEarned)
    {
      var found := GetUser(name);
      if found.None? {
        return Failure(USER_NOT_FOUND);
      }
      var u := found.value;
      u := u.(highScore := MaxInt(u.highScore, score));
      u := u.(coins := u.coins + coinsEarned);
      UpdateLeaderboard(name, score);
      UpdateUser(u);
      r := Success(u);
    }

    method PurchaseItem(name: string, id: ItemId) returns (r: Result<User>)
      requires StoreValid(View())
      modifies this
      ensures (r, View()) == Purchase(old(View()), name, id)
    {
      var found := GetUser(name);
      var item := FindItem(SHOP_ITEMS, id);
      if found.None? || item.None? || found.value.coins < item.value.price {
        return Failure(CANNOT_PURCHASE);
      }
      var u := found.value;
      u := u.(coins := u.coins - item.value.price);
      if item.value.category == Skins && item.value.id !in u.ownedSkins {
        u := u.(ownedSkins := u.ownedSkins + [item.value.id]);
      } else if item.value.category == Accessories && item.value.id !in u.ownedAccessories {
        u := u.(ownedAccessories := u.ownedAccessories + [item.value.id]);
      }
      UpdateUser(u);
      r := Success(u);
    }

    method EquipItem(name: string, id: ItemId, kind: EquipKind) returns (r: Result<User>)
      requires StoreValid(View())
      modifies this
      ensures (r, View()) == EquipFor(old(View()), name, id, kind)
    {
      var found := GetUser(name);
      if found.None? {
        return Failure(USER_NOT_FOUND);
      }
      var u := found.value;
      if kind == SkinSlot {
        u := u.(equippedSkin := id);
      } else if id in u.equippedAccessories {
        var kept := FilterLoop(u.equippedAccessories, (a: ItemId) => a != id);
        u := u.(equippedAccessories := kept);
      } else {
        u := u.(equippedAccessories := u.equippedAccessories + [id]);
      }
      UpdateUser(u);
      r := Success(u);
    }
  }
}
