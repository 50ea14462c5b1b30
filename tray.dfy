/**
 * The tray's context menu (main.js, `updateTrayMenu`): one entry per favourite, with its
 * label, click command and enabled flag, framed by the fixed "open" and "exit" items; and
 * the favourites list that the renderer replaces wholesale.
 */
module Tray {
  import opened Types
  import opened Lookup

  const GREEN_CIRCLE := "🟢"
  const RED_CIRCLE := "🔴"

  /** The command a favourite sends to the renderer when clicked. */
  datatype Command = ToggleDevice(id: string, isOn: Option<bool>) | ExecuteScenario(id: string)

  /** A menu entry: the fixed "open" and "exit" items, separators, and the favourites. */
  datatype MenuEntry =
    | OpenApp
    | Separator
    | Favorite(caption: string, enabled: bool, click: Option<Command>)
    | Exit

  /** `isDevice && item.isToggleable`. */
  predicate IsToggleableDevice(item: TrayMenuItem) {
    item.itemType == DeviceItem && item.isToggleable == Some(true)
  }

  /** `${item.name}${deviceStatus}`: a device's truthy sensor value follows its name; else
      a toggleable device gets a green or red circle; any other item shows its name. */
  function Label(item: TrayMenuItem): (r: string)
    ensures item.itemType == DeviceItem && Truthy(item.sensorValue) ==> r == item.name + " " + item.sensorValue.value
    ensures IsToggleableDevice(item) && !Truthy(item.sensorValue) ==>
      r == item.name + " " + (if item.isOn == Some(true) then GREEN_CIRCLE else RED_CIRCLE)
    ensures item.itemType == ScenarioItem ==> r == item.name
    ensures item.itemType == DeviceItem && !Truthy(item.sensorValue) && !IsToggleableDevice(item) ==> r == item.name
  {
    var deviceStatus :=
      if item.itemType != DeviceItem then ""
      else if Truthy(item.sensorValue) then " " + item.sensorValue.value
      else if IsToggleableDevice(item) then (if item.isOn == Some(true) then " " + GREEN_CIRCLE else " " + RED_CIRCLE)
      else "";
    item.name + deviceStatus
  }

  /** `clickAction`: a toggle for a toggleable device, carrying its `isOn` as it is; an
      execution for a scenario; nothing otherwise. */
  function Click(item: TrayMenuItem): (r: Option<Command>)
    ensures IsToggleableDevice(item) ==> r == Some(ToggleDevice(item.id, item.isOn))
    ensures item.itemType == ScenarioItem ==> r == Some(ExecuteScenario(item.id))
    ensures r.None? <==> item.itemType == DeviceItem && !IsToggleableDevice(item)
  {
    if IsToggleableDevice(item) then Some(ToggleDevice(item.id, item.isOn))
    else if item.itemType == ScenarioItem then Some(ExecuteScenario(item.id))
    else None
  }

  /** The entry for one favourite, `enabled: !!clickAction`. */
  function FavoriteEntry(item: TrayMenuItem): MenuEntry {
    var click := Click(item);
    Favorite(Label(item), click.Some?, click)
  }

  /** A favourite is clickable exactly when it is a scenario or a toggleable device. */
  lemma EnabledIff(item: TrayMenuItem)
    ensures FavoriteEntry(item).enabled <==> item.itemType == ScenarioItem || IsToggleableDevice(item)
    ensures FavoriteEntry(item).enabled <==> FavoriteEntry(item).click.Some?
  {
  }

  /** `favoritesData.map(...)`. */
  function FavoriteEntries(favorites: seq<TrayMenuItem>): (r: seq<MenuEntry>)
    ensures |r| == |favorites|
    ensures forall i :: 0 <= i < |r| ==> r[i] == FavoriteEntry(favorites[i])
  {
    seq(|favorites|, i requires 0 <= i < |favorites| => FavoriteEntry(favorites[i]))
  }

  /** `Menu.buildFromTemplate([...])`. */
  function Template(favorites: seq<TrayMenuItem>): seq<MenuEntry> {
    var entries := FavoriteEntries(favorites);
    [OpenApp] + (if |entries| > 0 then [Separator] else []) + entries + [Separator, Exit]
  }

  /** The menu opens with "open", closes with a separator and "exit", and holds the
      favourites in their order right after "open" and a separator, that separator being
      there only when there are favourites. */
  lemma {:induction false} TemplateLayout(favorites: seq<TrayMenuItem>)
    ensures var m := Template(favorites);
      && m[0] == OpenApp
      && m[|m| - 1] == Exit && m[|m| - 2] == Separator
      && (|favorites| == 0 ==> m == [OpenApp, Separator, Exit])
      && (|favorites| > 0 ==> (&& |m| == |favorites| + 4 && m[1] == Separator
                                && forall i :: 0 <= i < |favorites| ==> m[i + 2] == FavoriteEntry(favorites[i])))
  {
    var entries := FavoriteEntries(favorites);
    var m := Template(favorites);
    if |favorites| > 0 {
      assert m == [OpenApp, Separator] + entries + [Separator, Exit];
      forall i | 0 <= i < |favorites| ensures m[i + 2] == FavoriteEntry(favorites[i]) {
        assert m[i + 2] == entries[i];
      }
    } else {
      assert entries == [];
    }
  }

  predicate IsFavorite(e: MenuEntry) {
    e.Favorite?
  }

  /** Taking the favourite entries back out of the menu gives the mapped favourites, in
      order: the fixed items and separators add nothing and drop nothing. */
  lemma MenuFavorites(favorites: seq<TrayMenuItem>)
    ensures Filter(Template(favorites), IsFavorite) == FavoriteEntries(favorites)
  {
    var entries := FavoriteEntries(favorites);
    var head := [OpenApp] + (if |entries| > 0 then [Separator] else []);
    var tail := [Separator, Exit];
    assert Template(favorites) == head + entries + tail;
    calc {
      Filter(head + entries + tail, IsFavorite);
    == { FilterAppend(head + entries, tail, IsFavorite); }
      Filter(head + entries, IsFavorite) + Filter(tail, IsFavorite);
    == { NoFavorites(tail); }
      Filter(head + entries, IsFavorite) + [];
    == { FilterAppend(head, entries, IsFavorite); NoFavorites(head); }
      [] + Filter(entries, IsFavorite) + [];
    == { AllFavorites(entries); }
      entries;
    }
  }

  /** Entries none of which is a favourite are all filtered out. */
  lemma {:induction false} NoFavorites(entries: seq<MenuEntry>)
    requires forall i :: 0 <= i < |entries| ==> !IsFavorite(entries[i])
    ensures Filter(entries, IsFavorite) == []
  {
    if |entries| > 0 {
      NoFavorites(entries[1..]);
    }
  }

  lemma {:induction false} AllFavorites(entries: seq<MenuEntry>)
    requires forall i :: 0 <= i < |entries| ==> IsFavorite(entries[i])
    ensures Filter(entries, IsFavorite) == entries
  {
    if |entries| > 0 {
      AllFavorites(entries[1..]);
    }
  }

  /** The main process's tray state: whether the tray exists, the favourites last
      received, and the menu last set on the tray. */
  class TrayState {
    var hasTray: bool
    var favoritesData: seq<TrayMenuItem>
    var menu: Option<seq<MenuEntry>>

    constructor ()
      ensures !hasTray && favoritesData == [] && menu == None
    {
      hasTray := false;
      favoritesData := [];
      menu := None;
    }

    /** `updateTrayMenu()`: without a tray nothing happens; otherwise the menu is rebuilt
        from the favourites. */
    method UpdateTrayMenu()
      modifies this
      ensures hasTray ==> menu == Some(Template(favoritesData))
      ensures !hasTray ==> menu == old(menu)
      ensures hasTray == old(hasTray) && favoritesData == old(favoritesData)
    {
      if !hasTray {
        return;
      }
      menu := Some(Template(favoritesData));
    }

    /** The `tray:update-favorites` handler: the list is replaced as a whole and the menu
        rebuilt. */
    method UpdateFavorites(favorites: seq<TrayMenuItem>)
      modifies this
      ensures favoritesData == favorites
      ensures hasTray ==> menu == Some(Template(favorites))
      ensures !hasTray ==> menu == old(menu)
      ensures hasTray == old(hasTray)
    {
      favoritesData := favorites;
      UpdateTrayMenu();
    }
  }
}
