/** The keyword table of `SmartHomeVocab` in src/train/model.py and its
    inverse, with the facts about them that the codec relies on. */
module VocabTable {

  /** `self.commands`, transcribed entry by entry under the literal's own
      headings (device control, device names, rooms, values and states,
      special markers); the table is their union. The first group names
      '关闭' twice; as in a Python dict display the later value (3) wins. */
  function Actions(): map<string, int> {
    map[
      "打开" := 0, "关闭" := 1, "开启" := 2, "关闭" := 3,
      "调节" := 4, "设置" := 5, "调到" := 6, "调整" := 7]
  }
  function Devices(): map<string, int> {
    map[
      "灯" := 10, "电灯" := 11, "台灯" := 12, "吊灯" := 13,
      "空调" := 20, "冷气" := 21, "暖气" := 22,
      "电视" := 30, "电视机" := 31,
      "窗帘" := 40, "百叶窗" := 41,
      "风扇" := 50, "吊扇" := 51]
  }
  function Rooms(): map<string, int> {
    map[
      "客厅" := 100, "卧室" := 101, "厨房" := 102, "书房" := 103,
      "阳台" := 104, "洗手间" := 105, "卫生间" := 106]
  }
  function Levels(): map<string, int> {
    map[
      "一" := 200, "二" := 201, "三" := 202, "四" := 203, "五" := 204,
      "低" := 210, "中" := 211, "高" := 212,
      "亮" := 220, "暗" := 221, "明亮" := 222, "昏暗" := 223]
  }
  function Markers(): map<string, int> {
    map[
      "<PAD>" := 300, "<UNK>" := 301, "<START>" := 302, "<END>" := 303]
  }

  function Commands(): map<string, int> {
    Actions() + Devices() + Rooms() + Levels() + Markers()
  }

  const Unk: string := "<UNK>"

  /** No two keys share an id. */
  predicate Injective(m: map<string, int>) {
    forall a, b :: a in m && b in m && m[a] == m[b] ==> a == b
  }

  /** Every id of the table lies in [lo, hi]. */
  predicate IdsWithin(m: map<string, int>, lo: int, hi: int) {
    forall k :: k in m ==> lo <= m[k] <= hi
  }

  /** `{v: k for k, v in m.items()}` for a table whose ids are distinct. */
  function Invert(m: map<string, int>): (inv: map<int, string>)
    requires Injective(m)
    ensures forall k :: k in m ==> m[k] in inv && inv[m[k]] == k
    ensures forall v :: v in inv ==> inv[v] in m && m[inv[v]] == v
  {
    map k | k in m :: m[k] := k
  }

  /** Two tables with disjoint keys and separated id ranges join into one
      with distinct ids and as many keys as both together. */
  lemma {:induction false} JoinTables(a: map<string, int>, b: map<string, int>, lo: int, mid: int, hi: int)
    requires Injective(a) && Injective(b) && a.Keys !! b.Keys
    requires lo <= mid < hi
    requires IdsWithin(a, lo, mid) && IdsWithin(b, mid + 1, hi)
    ensures Injective(a + b) && IdsWithin(a + b, lo, hi)
    ensures |(a + b).Keys| == |a.Keys| + |b.Keys|
  {
    assert (a + b).Keys == a.Keys + b.Keys;
    forall k | k in a ensures (a + b)[k] == a[k] {
      assert k !in b;
    }
    forall k | k in b ensures (a + b)[k] == b[k] {
    }
  }

  lemma CommandsWellFormed()
    ensures Injective(Commands()) && IdsWithin(Commands(), 0, 399)
    ensures |Commands().Keys| == 43
  {
    UpToLevelsWellFormed();
    MarkersWellFormed();
    var m := Actions() + Devices() + Rooms() + Levels();
    DisjointActionsMarkers();
    DisjointDevicesMarkers();
    DisjointRoomsMarkers();
    DisjointLevelsMarkers();
    assert m.Keys == Actions().Keys + Devices().Keys + Rooms().Keys + Levels().Keys;
    JoinTables(m, Markers(), 0, 299, 399);
  }

  /** The actions and devices together. */
  lemma UpToDevicesWellFormed()
    ensures var m := Actions() + Devices();
      Injective(m) && IdsWithin(m, 0, 99) && |m.Keys| == 20 && m.Keys == Actions().Keys + Devices().Keys
  {
    ActionsWellFormed();
    DevicesWellFormed();
    DisjointActionsDevices();
    JoinTables(Actions(), Devices(), 0, 9, 99);
  }

  /** The actions, devices and rooms together. */
  lemma UpToRoomsWellFormed()
    ensures var m := Actions() + Devices() + Rooms();
      Injective(m) && IdsWithin(m, 0, 199) && |m.Keys| == 27 &&
      m.Keys == Actions().Keys + Devices().Keys + Rooms().Keys
  {
    UpToDevicesWellFormed();
    RoomsWellFormed();
    DisjointActionsRooms();
    DisjointDevicesRooms();
    JoinTables(Actions() + Devices(), Rooms(), 0, 99, 199);
  }

  /** The actions, devices, rooms and levels together. */
  lemma UpToLevelsWellFormed()
    ensures var m := Actions() + Devices() + Rooms() + Levels();
      Injective(m) && IdsWithin(m, 0, 299) && |m.Keys| == 39 &&
      m.Keys == Actions().Keys + Devices().Keys + Rooms().Keys + Levels().Keys
  {
    UpToRoomsWellFormed();
    LevelsWellFormed();
    DisjointActionsLevels();
    DisjointDevicesLevels();
    DisjointRoomsLevels();
    JoinTables(Actions() + Devices() + Rooms(), Levels(), 0, 199, 299);
  }

  lemma ActionsWellFormed()
    ensures Injective(Actions()) && IdsWithin(Actions(), 0, 9) && |Actions().Keys| == 7
  {
    ActionsInjective();
    ActionsIdsWithin();
    ActionsSize();
  }

  lemma ActionsIdsWithin()
    ensures IdsWithin(Actions(), 0, 9)
  {
  }

  lemma ActionsSize()
    ensures |Actions().Keys| == 7
  {
  }

  lemma ActionsInjective()
    ensures Injective(Actions())
  {
  }

  lemma DevicesWellFormed()
    ensures Injective(Devices()) && IdsWithin(Devices(), 10, 99) && |Devices().Keys| == 13
  {
    DevicesInjective();
    DevicesIdsWithin();
    DevicesSize();
  }

  lemma DevicesIdsWithin()
    ensures IdsWithin(Devices(), 10, 99)
  {
  }

  lemma DevicesSize()
    ensures |Devices().Keys| == 13
  {
  }

  lemma DevicesInjective()
    ensures Injective(Devices())
  {
  }

  lemma RoomsWellFormed()
    ensures Injective(Rooms()) && IdsWithin(Rooms(), 100, 199) && |Rooms().Keys| == 7
  {
    RoomsInjective();
    RoomsIdsWithin();
    RoomsSize();
  }

  lemma RoomsIdsWithin()
    ensures IdsWithin(Rooms(), 100, 199)
  {
  }

  lemma RoomsSize()
    ensures |Rooms().Keys| == 7
  {
  }

  lemma RoomsInjective()
    ensures Injective(Rooms())
  {
  }

  lemma LevelsWellFormed()
    ensures Injective(Levels()) && IdsWithin(Levels(), 200, 299) && |Levels().Keys| == 12
  {
    LevelsInjective();
    LevelsIdsWithin();
    LevelsSize();
  }

  lemma LevelsIdsWithin()
    ensures IdsWithin(Levels(), 200, 299)
  {
  }

  lemma LevelsSize()
    ensures |Levels().Keys| == 12
  {
  }

  lemma LevelsInjective()
    ensures Injective(Levels())
  {
  }

  lemma MarkersWellFormed()
    ensures Injective(Markers()) && IdsWithin(Markers(), 300, 399) && |Markers().Keys| == 4
  {
    MarkersInjective();
    MarkersIdsWithin();
    MarkersSize();
  }

  lemma MarkersIdsWithin()
    ensures IdsWithin(Markers(), 300, 399)
  {
  }

  lemma MarkersSize()
    ensures |Markers().Keys| == 4
  {
  }

  lemma MarkersInjective()
    ensures Injective(Markers())
  {
  }

  lemma DisjointActionsDevices()
    ensures Actions().Keys !! Devices().Keys
  {
  }

  lemma DisjointActionsRooms()
    ensures Actions().Keys !! Rooms().Keys
  {
  }

  lemma DisjointDevicesRooms()
    ensures Devices().Keys !! Rooms().Keys
  {
  }

  lemma DisjointActionsLevels()
    ensures Actions().Keys !! Levels().Keys
  {
  }

  lemma DisjointDevicesLevels()
    ensures Devices().Keys !! Levels().Keys
  {
  }

  lemma DisjointRoomsLevels()
    ensures Rooms().Keys !! Levels().Keys
  {
  }

  lemma DisjointActionsMarkers()
    ensures Actions().Keys !! Markers().Keys
  {
  }

  lemma DisjointDevicesMarkers()
    ensures Devices().Keys !! Markers().Keys
  {
  }

  lemma DisjointRoomsMarkers()
    ensures Rooms().Keys !! Markers().Keys
  {
  }

  lemma DisjointLevelsMarkers()
    ensures Levels().Keys !! Markers().Keys
  {
  }

  /** `self.id_to_token`. */
  function IdToToken(): (inv: map<int, string>)
    ensures forall k :: k in Commands() ==> Commands()[k] in inv && inv[Commands()[k]] == k
    ensures forall v :: v in inv ==> inv[v] in Commands() && Commands()[inv[v]] == v
  {
    CommandsWellFormed();
    Invert(Commands())
  }


  /** '关闭' keeps the later id 3 and `<UNK>` is 301; no key has id 1. */
  lemma CommandsFacts()
    ensures "关闭" in Commands() && Commands()["关闭"] == 3
    ensures Unk in Commands() && Commands()[Unk] == 301
    ensures 1 !in IdToToken()
  {
    ClosingRebound();
    UnkId();
    NoIdOne();
  }

  /** The second '关闭' entry of the dict literal wins. */
  lemma ClosingRebound()
    ensures "关闭" in Commands() && Commands()["关闭"] == 3
  {
    DisjointActionsDevices();
    DisjointActionsRooms();
    DisjointActionsLevels();
    DisjointActionsMarkers();
    var ad := Actions() + Devices();
    var adr := ad + Rooms();
    var adrl := adr + Levels();
    assert Actions()["关闭"] == 3;
    assert "关闭" !in Devices() && ad["关闭"] == 3;
    assert "关闭" !in Rooms() && adr["关闭"] == 3;
    assert "关闭" !in Levels() && adrl["关闭"] == 3;
    assert "关闭" !in Markers();
  }

  lemma UnkId()
    ensures Unk in Commands() && Commands()[Unk] == 301
  {
    assert Markers()[Unk] == 301;
  }

  lemma NoIdOne()
    ensures 1 !in IdToToken()
  {
    CommandsWellFormed();
    forall k | k in Commands() ensures Commands()[k] != 1 {
      OnlyClosingHadOne(k);
    }
  }

  /** Only '关闭' was listed with id 1, and it was rebound. */
  lemma OnlyClosingHadOne(k: string)
    requires k in Commands()
    ensures Commands()[k] != 1
  {
    var ad := Actions() + Devices();
    var adr := ad + Rooms();
    var adrl := adr + Levels();
    if k in Markers() {
      MarkersIdsWithin();
    } else if k in Levels() {
      LevelsIdsWithin();
      assert Commands()[k] == adrl[k] == Levels()[k];
    } else if k in Rooms() {
      RoomsIdsWithin();
      assert Commands()[k] == adrl[k] == adr[k] == Rooms()[k];
    } else if k in Devices() {
      DevicesIdsWithin();
      assert Commands()[k] == adrl[k] == adr[k] == ad[k] == Devices()[k];
    } else {
      ActionsSkipOne();
      assert Commands()[k] == adrl[k] == adr[k] == ad[k] == Actions()[k];
    }
  }

  lemma ActionsSkipOne()
    ensures forall k :: k in Actions() ==> Actions()[k] != 1
  {
  }

  /** Characters that are not keys, and one that is. */
  lemma CharKeys()
    ensures "打" !in Commands() && "开" !in Commands()
    ensures "灯" in Commands() && Commands()["灯"] == 10
  {
    NotAKey("打");
    NotAKey("开");
    LampKey();
  }

  lemma NotAKey(c: string)
    requires c == "打" || c == "开"
    ensures c !in Commands()
  {
    NotAnAction(c);
    NotADevice(c);
    NotARoomOrLevel(c);
    assert c !in Markers();
  }

  lemma NotAnAction(c: string)
    requires c == "打" || c == "开"
    ensures c !in Actions()
  {
  }

  lemma NotADevice(c: string)
    requires c == "打" || c == "开"
    ensures c !in Devices()
  {
  }

  lemma NotARoomOrLevel(c: string)
    requires c == "打" || c == "开"
    ensures c !in Rooms() && c !in Levels()
  {
  }

  lemma LampKey()
    ensures "灯" in Commands() && Commands()["灯"] == 10
  {
    var ad := Actions() + Devices();
    LampOnlyDevice();
    assert ad["灯"] == 10;
    assert (ad + Rooms())["灯"] == 10;
    assert (ad + Rooms() + Levels())["灯"] == 10;
  }

  lemma LampOnlyDevice()
    ensures "灯" in Devices() && Devices()["灯"] == 10
    ensures "灯" !in Rooms() && "灯" !in Levels() && "灯" !in Markers()
  {
  }
}
