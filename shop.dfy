/**
 * The shop screen: the catalogue, the status/type decision that picks the
 * action shown on an item card, and the filters behind the three tabs.
 */
module Shop {
  import opened Sequences

  datatype ItemType = Dlc | Physical
  datatype ItemStatus = Available | Purchased | Installed

  datatype ShopItem = ShopItem(id: string, name: string, description: string, price: int,
                               itemType: ItemType, category: string, status: ItemStatus,
                               thumbnail: string)

  /** What an item card offers besides its price. */
  datatype CardAction = InstalledBadge | InstallButton | PurchasedBadge | PurchaseButton

  datatype Tab = AllTab | DlcTab | PhysicalTab

  const Catalogue: seq<ShopItem> := [
    ShopItem("dlc1", "水着コスチュームパック", "夏の特別な水着姿と専用演出を追加", 1200, Dlc, "コスチューム", Available, "水着"),
    ShopItem("dlc2", "クリスマスボイスパック", "クリスマス限定のボイスと演出", 800, Dlc, "ボイス", Purchased, "Xmas"),
    ShopItem("dlc3", "バトルモーションセット", "戦闘シーン風のかっこいいモーション集", 1500, Dlc, "モーション", Installed, "戦闘"),
    ShopItem("dlc4", "日常会話拡張パック", "500以上の新しいセリフを追加", 1000, Dlc, "ボイス", Available, "会話"),
    ShopItem("phy1", "武装パーツセットA", "ライフル＆ブレード（実物パーツ）", 3800, Physical, "武装", Available, "武装A"),
    ShopItem("phy2", "ドレスアップセット", "パーティードレス（実物衣装）", 2500, Physical, "衣装", Purchased, "ドレス"),
    ShopItem("phy3", "追加表情パーツ", "笑顔・照れ顔など5種類（実物フェイスパーツ）", 2000, Physical, "表情", Available, "表情")
  ]

  /** The card's four independent conditional blocks, in order, as the actions they render. */
  function RenderedActions(item: ShopItem): seq<CardAction> {
    (if item.status == Installed then [InstalledBadge] else []) +
    (if item.status == Purchased && item.itemType == Dlc then [InstallButton] else []) +
    (if item.status == Purchased && item.itemType == Physical then [PurchasedBadge] else []) +
    (if item.status == Available then [PurchaseButton] else [])
  }

  /** The status/type decision table; every pair renders exactly this one action. */
  function ActionFor(item: ShopItem): (a: CardAction)
    ensures RenderedActions(item) == [a]
    ensures a == InstalledBadge <==> item.status == Installed
    ensures a == PurchaseButton <==> item.status == Available
    ensures a == InstallButton <==> item.status == Purchased && item.itemType == Dlc
    ensures a == PurchasedBadge <==> item.status == Purchased && item.itemType == Physical
  {
    match item.status
    case Installed => InstalledBadge
    case Purchased => if item.itemType == Dlc then InstallButton else PurchasedBadge
    case Available => PurchaseButton
  }

  /** The items listed under a tab. */
  function TabItems(tab: Tab, items: seq<ShopItem>): seq<ShopItem> {
    match tab
    case AllTab => items
    case DlcTab => Filter(items, (i: ShopItem) => i.itemType == Dlc)
    case PhysicalTab => Filter(items, (i: ShopItem) => i.itemType == Physical)
  }

  /**
   * The DLC and physical tabs split any item list between them, each keeping
   * the list's order and holding only items of its own type.
   */
  lemma TabsPartition(items: seq<ShopItem>)
    ensures multiset(TabItems(DlcTab, items)) + multiset(TabItems(PhysicalTab, items)) == multiset(items)
    ensures IsSubsequence(TabItems(DlcTab, items), items)
    ensures IsSubsequence(TabItems(PhysicalTab, items), items)
    ensures forall k :: 0 <= k < |TabItems(DlcTab, items)| ==> TabItems(DlcTab, items)[k].itemType == Dlc
    ensures forall k :: 0 <= k < |TabItems(PhysicalTab, items)| ==> TabItems(PhysicalTab, items)[k].itemType == Physical
    ensures TabItems(AllTab, items) == items
  {
    var isDlc := (i: ShopItem) => i.itemType == Dlc;
    var isPhysical := (i: ShopItem) => i.itemType == Physical;
    assert TabItems(DlcTab, items) == Filter(items, isDlc);
    assert TabItems(PhysicalTab, items) == Filter(items, isPhysical);
    FilterPartition(items, isDlc, isPhysical);
    FilterIsSubsequence(items, isDlc);
    FilterIsSubsequence(items, isPhysical);
  }

  /** On the catalogue the DLC tab lists the four DLC packs and the physical tab the three parts. */
  lemma CatalogueTabs()
    ensures TabItems(DlcTab, Catalogue) == Catalogue[..4]
    ensures TabItems(PhysicalTab, Catalogue) == Catalogue[4..]
  {
    var isDlc := (i: ShopItem) => i.itemType == Dlc;
    var isPhysical := (i: ShopItem) => i.itemType == Physical;
    var dlcs, parts := Catalogue[..4], Catalogue[4..];
    assert Catalogue == dlcs + parts;
    assert forall k :: 0 <= k < |dlcs| ==> dlcs[k].itemType == Dlc;
    assert forall k :: 0 <= k < |parts| ==> parts[k].itemType == Physical;
    SplitByType(dlcs, parts);
  }

  /** A list of DLC items followed by a list of physical items splits back into the two. */
  lemma SplitByType(dlcs: seq<ShopItem>, parts: seq<ShopItem>)
    requires forall k :: 0 <= k < |dlcs| ==> dlcs[k].itemType == Dlc
    requires forall k :: 0 <= k < |parts| ==> parts[k].itemType == Physical
    ensures TabItems(DlcTab, dlcs + parts) == dlcs
    ensures TabItems(PhysicalTab, dlcs + parts) == parts
  {
    var isDlc := (i: ShopItem) => i.itemType == Dlc;
    var isPhysical := (i: ShopItem) => i.itemType == Physical;
    FilterConcat(dlcs, parts, isDlc);
    FilterConcat(dlcs, parts, isPhysical);
    FilterKeepsAll(dlcs, isDlc);
    FilterKeepsAll(parts, isPhysical);
    FilterDropsAll(parts, isDlc);
    FilterDropsAll(dlcs, isPhysical);
  }
}
