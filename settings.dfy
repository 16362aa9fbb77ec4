/**
 * `SettingsViewModel` (CVX-QLSX.App/ViewModels/SettingsViewModel.cs): the settings page. It copies
 * the camera endpoint, the reconnect flag and the product list between the stored `AppSettings`
 * (CVX-QLSX.App/Models/AppSettings.cs) and its own fields, and edits the product list.
 *
 * The JSON file behind `ISettingsService` is not modelled: `SettingsStore` holds the settings a
 * `Load` returns, and a `Save` replaces them.
 */
module Settings {
  import opened Wrappers
  import opened Int32s
  import opened Text

  /** `AppSettings`. */
  datatype AppSettings = AppSettings(
    cameraIpAddress: string,
    cameraPort: Int32,
    reconnectIntervalSeconds: Int32,
    autoReconnect: bool,
    productList: seq<string>)

  /** `new AppSettings()`. */
  const DefaultSettings := AppSettings("192.168.0.10", 8500, 5, true,
    ["Chay Dong Co", "Lau Tom Chua Cay Cung Dinh"])

  /** The four values the page edits. */
  datatype Form = Form(cameraIpAddress: string, cameraPort: Int32, autoReconnect: bool, productList: seq<string>)

  /** What `LoadSettings` shows for stored settings. */
  function LoadedForm(s: AppSettings): (f: Form)
    ensures f.productList == s.productList
  {
    Form(s.cameraIpAddress, s.cameraPort, s.autoReconnect, s.productList)
  }

  /** What `SaveSettings` writes: the stored settings with the page's four values copied in. */
  function SavedSettings(current: AppSettings, f: Form): (s: AppSettings)
    ensures s.reconnectIntervalSeconds == current.reconnectIntervalSeconds
    ensures LoadedForm(s) == f
  {
    current.(cameraIpAddress := f.cameraIpAddress, cameraPort := f.cameraPort,
      autoReconnect := f.autoReconnect, productList := f.productList)
  }

  /** Saving right after loading writes back exactly the settings that were loaded. */
  lemma SaveAfterLoadWritesBack(s: AppSettings)
    ensures SavedSettings(s, LoadedForm(s)) == s
  {
  }

  /** Saving twice writes what the second save alone would. */
  lemma SaveOverwrites(s: AppSettings, f: Form, g: Form)
    ensures SavedSettings(SavedSettings(s, f), g) == SavedSettings(s, g)
  {
  }

  predicate NoDuplicates(ps: seq<string>) {
    forall i, j :: 0 <= i < j < |ps| ==> ps[i] != ps[j]
  }

  /** `Collection<string>.Remove`: drops the first occurrence, if any. */
  function RemoveFirst(ps: seq<string>, x: string): seq<string> {
    if ps == [] then []
    else if ps[0] == x then ps[1..]
    else [ps[0]] + RemoveFirst(ps[1..], x)
  }

  /** The position of the first occurrence of `x`. */
  function IndexOf(ps: seq<string>, x: string): (i: nat)
    requires x in ps
    ensures i < |ps| && ps[i] == x && x !in ps[..i]
  {
    if ps[0] == x then 0
    else
      var j := IndexOf(ps[1..], x);
      assert ps[..j + 1] == [ps[0]] + ps[1..][..j];
      j + 1
  }

  /** Without an occurrence the list is unchanged. */
  lemma {:induction false} RemoveFirstAbsent(ps: seq<string>, x: string)
    requires x !in ps
    ensures RemoveFirst(ps, x) == ps
  {
    if ps != [] {
      assert x !in ps[1..];
      RemoveFirstAbsent(ps[1..], x);
    }
  }

  /** With an occurrence, exactly the first one is cut out. */
  lemma {:induction false} RemoveFirstAt(ps: seq<string>, x: string)
    requires x in ps
    ensures RemoveFirst(ps, x) == ps[..IndexOf(ps, x)] + ps[IndexOf(ps, x) + 1..]
  {
    if ps[0] != x {
      RemoveFirstAt(ps[1..], x);
      var j := IndexOf(ps[1..], x);
      assert ps[..j + 1] == [ps[0]] + ps[1..][..j];
      assert ps[j + 2..] == ps[1..][j + 1..];
    }
  }

  /** One copy of `x` fewer, as a bag, and nothing else changes. */
  lemma {:induction false} RemoveFirstMultiset(ps: seq<string>, x: string)
    ensures multiset(RemoveFirst(ps, x)) == multiset(ps) - multiset{x}
  {
    if ps != [] {
      assert ps == [ps[0]] + ps[1..];
      assert multiset(ps) == multiset{ps[0]} + multiset(ps[1..]);
      if ps[0] != x {
        RemoveFirstMultiset(ps[1..], x);
        assert RemoveFirst(ps, x) == [ps[0]] + RemoveFirst(ps[1..], x);
        assert multiset(RemoveFirst(ps, x)) == multiset{ps[0]} + multiset(RemoveFirst(ps[1..], x));
      }
    }
  }

  /** Removing from a list without duplicates keeps it so and leaves no copy of the name. */
  lemma RemoveFirstKeepsNoDuplicates(ps: seq<string>, x: string)
    requires NoDuplicates(ps)
    ensures NoDuplicates(RemoveFirst(ps, x)) && x !in RemoveFirst(ps, x)
  {
    if x !in ps {
      RemoveFirstAbsent(ps, x);
    } else {
      var i := IndexOf(ps, x);
      RemoveFirstAt(ps, x);
      var r := ps[..i] + ps[i + 1..];
      assert |r| == |ps| - 1;
      assert forall k :: 0 <= k < |r| ==> r[k] == ps[Skip(k, i)];
      forall a, b | 0 <= a < b < |r| ensures r[a] != r[b] {
        assert Skip(a, i) < Skip(b, i);
      }
      forall k | 0 <= k < |r| ensures r[k] != x {
        assert Skip(k, i) != i;
      }
    }
  }

  /** The position in the original list of entry `k` once position `i` is cut out. */
  function Skip(k: nat, i: nat): (k': nat)
    ensures k' != i
  {
    if k < i then k else k + 1
  }

  /** Appending a name that is absent keeps a list without duplicates. */
  lemma AppendAbsentKeepsNoDuplicates(ps: seq<string>, x: string)
    requires NoDuplicates(ps) && x !in ps
    ensures NoDuplicates(ps + [x])
  {
    var r := ps + [x];
    forall a, b | 0 <= a < b < |r| ensures r[a] != r[b] {
      if b == |ps| {
        assert r[a] == ps[a];
      } else {
        assert r[a] == ps[a] && r[b] == ps[b];
      }
    }
  }

  /** `ISettingsService`: `stored` is what `Load` returns; `saves` the settings written so far. */
  class SettingsStore {
    var stored: AppSettings
    var saves: seq<AppSettings>

    constructor(initial: AppSettings)
      ensures stored == initial && saves == []
    {
      stored := initial;
      saves := [];
    }

    function Load(): AppSettings
      reads this
    {
      stored
    }

    method Save(s: AppSettings)
      modifies this
      ensures stored == s && saves == old(saves) + [s]
    {
      stored := s;
      saves := saves + [s];
    }
  }

  const SavedMessage := "Đã lưu cài đặt!"

  /** The page's fields as one value. */
  datatype Page = Page(form: Form, testConnectionResult: string, newProduct: string, selectedProduct: Option<string>)

  class SettingsViewModel {
    const store: SettingsStore
    var cameraIpAddress: string
    var cameraPort: Int32
    var autoReconnect: bool
    var testConnectionResult: string
    /** The `ProductList` collection. */
    var productList: seq<string>
    var newProduct: string
    var selectedProduct: Option<string>

    function CurrentForm(): Form
      reads this
    {
      Form(cameraIpAddress, cameraPort, autoReconnect, productList)
    }

    function PageState(): Page
      reads this
    {
      Page(CurrentForm(), testConnectionResult, newProduct, selectedProduct)
    }

    /** The constructor ends with `LoadSettings`. */
    constructor(store: SettingsStore)
      ensures this.store == store
      ensures CurrentForm() == LoadedForm(store.stored)
      ensures testConnectionResult == "" && newProduct == "" && selectedProduct.None?
      ensures store.stored == old(store.stored) && store.saves == old(store.saves)
    {
      this.store := store;
      cameraIpAddress := "192.168.1.100";
      cameraPort := 8500;
      autoReconnect := true;
      testConnectionResult := "";
      productList := [];
      newProduct := "";
      selectedProduct := None;
      new;
      LoadSettings();
    }

    /** `LoadSettings`: copies the stored endpoint, flag and product list into the page. */
    method LoadSettings()
      modifies this
      ensures CurrentForm() == LoadedForm(store.stored)
      ensures testConnectionResult == old(testConnectionResult)
      ensures newProduct == old(newProduct) && selectedProduct == old(selectedProduct)
    {
      var settings := store.Load();
      cameraIpAddress := settings.cameraIpAddress;
      cameraPort := settings.cameraPort;
      autoReconnect := settings.autoReconnect;
      productList := [];
      var i := 0;
      while i < |settings.productList|
        invariant 0 <= i <= |settings.productList|
        invariant productList == settings.productList[..i]
        invariant cameraIpAddress == settings.cameraIpAddress && cameraPort == settings.cameraPort
        invariant autoReconnect == settings.autoReconnect
        invariant testConnectionResult == old(testConnectionResult)
        invariant newProduct == old(newProduct) && selectedProduct == old(selectedProduct)
      {
        productList := productList + [settings.productList[i]];
        i := i + 1;
      }
    }

    /** `SaveSettings`: the stored settings with the page's four values copied in are saved;
        every other stored field keeps its value. */
    method SaveSettings()
      modifies this, store
      ensures store.stored == SavedSettings(old(store.stored), old(CurrentForm()))
      ensures store.saves == old(store.saves) + [store.stored]
      ensures PageState() == old(PageState()).(testConnectionResult := SavedMessage)
    {
      var currentSettings := store.Load();
      currentSettings := currentSettings.(cameraIpAddress := cameraIpAddress, cameraPort := cameraPort,
        autoReconnect := autoReconnect, productList := productList);
      store.Save(currentSettings);
      testConnectionResult := SavedMessage;
    }

    /** `AddProduct`: a blank name changes nothing; otherwise an absent name is appended and
        saved, and the entry box is cleared either way. The endpoint, the flag and the selection
        are kept. */
    method AddProduct()
      modifies this, store
      ensures IsBlank(old(newProduct)) ==> (PageState() == old(PageState())
        && store.stored == old(store.stored) && store.saves == old(store.saves))
      ensures !IsBlank(old(newProduct)) && old(newProduct) in old(productList) ==>
        (PageState() == old(PageState()).(newProduct := "")
        && store.stored == old(store.stored) && store.saves == old(store.saves))
      ensures !IsBlank(old(newProduct)) && old(newProduct) !in old(productList) ==>
        (PageState() == old(PageState()).(
          form := old(CurrentForm()).(productList := old(productList) + [old(newProduct)]),
          testConnectionResult := SavedMessage, newProduct := "")
        && store.stored == SavedSettings(old(store.stored),
          old(CurrentForm()).(productList := old(productList) + [old(newProduct)]))
        && store.saves == old(store.saves) + [store.stored])
      ensures NoDuplicates(old(productList)) ==> NoDuplicates(productList)
    {
      if IsBlank(newProduct) {
        return;
      }
      if newProduct !in productList {
        if NoDuplicates(productList) {
          AppendAbsentKeepsNoDuplicates(productList, newProduct);
        }
        productList := productList + [newProduct];
        SaveSettings();
      }
      newProduct := "";
    }

    /** `RemoveProduct`: without a selection nothing happens; otherwise the first occurrence of
        the selected name is removed, the list is saved and the selection is cleared. The
        endpoint, the flag and the entry box are kept. */
    method RemoveProduct()
      modifies this, store
      ensures old(selectedProduct).None? ==> (PageState() == old(PageState())
        && store.stored == old(store.stored) && store.saves == old(store.saves))
      ensures old(selectedProduct).Some? ==>
        (PageState() == old(PageState()).(
          form := old(CurrentForm()).(productList := RemoveFirst(old(productList), old(selectedProduct).value)),
          testConnectionResult := SavedMessage, selectedProduct := None)
        && store.stored == SavedSettings(old(store.stored),
          old(CurrentForm()).(productList := RemoveFirst(old(productList), old(selectedProduct).value)))
        && store.saves == old(store.saves) + [store.stored])
      ensures old(selectedProduct).Some? && NoDuplicates(old(productList)) ==>
        (NoDuplicates(productList) && old(selectedProduct).value !in productList)
    {
      if selectedProduct.None? {
        return;
      }
      if NoDuplicates(productList) {
        RemoveFirstKeepsNoDuplicates(productList, selectedProduct.value);
      }
      productList := RemoveFirst(productList, selectedProduct.value);
      SaveSettings();
      selectedProduct := None;
    }
  }
}
