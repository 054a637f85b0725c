/**
 * The indicator's menu: its entries, the sensitivity rule of
 * ui_toggle_menuitems, and ui_command_set_fan, which posts the chosen
 * fan mode to the shared record and then updates the menu.
 */
module UiMenu {
  import opened SharedState

  /** NA, AUTO and MANUAL: what clicking an entry selects. */
  datatype ItemKind = NoAction | AutoItem | ManualItem

  /** One menu entry: its caption, the value its callback receives, and its kind. */
  datatype MenuItem = MenuItem(caption: string, option: int, kind: ItemKind)

  /** menuitems: auto, a separator, 40% to 100% in steps of 10, a separator, quit. */
  function MenuItems(): (items: seq<MenuItem>)
    ensures |items| == 11
    ensures items[0].kind == AutoItem && items[0].option == 0
    ensures forall i :: 2 <= i <= 8 ==> items[i].kind == ManualItem && items[i].option == 40 + 10 * (i - 2)
  {
    [MenuItem("Set FAN to AUTO", 0, AutoItem),
     MenuItem("", 0, NoAction),
     MenuItem("Set FAN to  40%", 40, ManualItem),
     MenuItem("Set FAN to  50%", 50, ManualItem),
     MenuItem("Set FAN to  60%", 60, ManualItem),
     MenuItem("Set FAN to  70%", 70, ManualItem),
     MenuItem("Set FAN to  80%", 80, ManualItem),
     MenuItem("Set FAN to  90%", 90, ManualItem),
     MenuItem("Set FAN to 100%", 100, ManualItem),
     MenuItem("", 0, NoAction),
     MenuItem("Quit", 0, NoAction)]
  }

  /** ui_toggle_menuitems for one entry: in auto mode the auto entry is off, otherwise the chosen duty's entry. */
  function Sensitive(item: MenuItem, fanDuty: int): (live: bool)
    // separators and quit are never greyed out
    ensures item.kind == NoAction ==> live
    // the auto entry is greyed out exactly in auto mode
    ensures item.kind == AutoItem ==> (live <==> fanDuty != 0)
    // in manual mode a manual entry is greyed out exactly when it offers the chosen duty
    ensures item.kind == ManualItem && fanDuty != 0 ==> (live <==> item.option != fanDuty)
    // in auto mode every manual entry stays live
    ensures item.kind == ManualItem && fanDuty == 0 ==> live
  {
    if fanDuty == 0 then item.kind != AutoItem
    else item.kind != ManualItem || item.option != fanDuty
  }

  /**
   * The menu works like a set of radio buttons: after clicking an auto or
   * manual entry, that entry and no other one is greyed out.
   */
  lemma ClickDisablesOnlyThatItem(i: int)
    requires 0 <= i < |MenuItems()| && MenuItems()[i].kind != NoAction
    ensures forall j :: 0 <= j < |MenuItems()| ==> (Sensitive(MenuItems()[j], MenuItems()[i].option) <==> j != i)
  {
    var items := MenuItems();
    forall j | 0 <= j < |items|
      ensures Sensitive(items[j], items[i].option) <==> j != i
    {
      if i != 0 && j != 0 && items[j].kind == ManualItem {
        assert items[j].option == items[i].option <==> j == i;
      }
    }
  }

  /**
   * A nonzero duty no entry offers greys out nothing.  The UI starts by
   * applying the rule to the measured CPU fan duty: that greys out the auto
   * entry while it is still 0, a manual entry when it is one of 40, 50, ...,
   * 100, and nothing otherwise.
   */
  lemma UnlistedDutyDisablesNothing(fanDuty: int)
    requires fanDuty != 0 && (fanDuty < 40 || fanDuty > 100 || fanDuty % 10 != 0)
    ensures forall j :: 0 <= j < |MenuItems()| ==> Sensitive(MenuItems()[j], fanDuty)
  {
    var items := MenuItems();
    forall j | 0 <= j < |items|
      ensures Sensitive(items[j], fanDuty)
    {
      if 2 <= j <= 8 {
        assert items[j].option == 40 + 10 * (j - 2);
      }
    }
  }

  /**
   * ui_toggle_menuitems: every entry that has a widget gets the
   * sensitivity the rule gives for `fanDuty`; entries without one are skipped.
   */
  method ToggleMenuItems(sensitive: array<bool>, created: seq<bool>, fanDuty: int)
    requires sensitive.Length == |MenuItems()| && |created| == |MenuItems()|
    modifies sensitive
    ensures forall i :: 0 <= i < sensitive.Length ==>
              sensitive[i] == (if created[i] then Sensitive(MenuItems()[i], fanDuty) else old(sensitive[i]))
  {
    var items := MenuItems();
    for i := 0 to |items|
      invariant forall j :: 0 <= j < i ==>
                  sensitive[j] == (if created[j] then Sensitive(items[j], fanDuty) else old(sensitive[j]))
      invariant forall j :: i <= j < sensitive.Length ==> sensitive[j] == old(sensitive[j])
    {
      if !created[i] {
        continue;
      }
      if fanDuty == 0 {
        sensitive[i] := items[i].kind != AutoItem;
      } else {
        sensitive[i] := items[i].kind != ManualItem || items[i].option != fanDuty;
      }
    }
  }

  /** ui_command_set_fan: post the chosen mode to the shared record, then update the menu. */
  method UiCommandSetFan(share: ShareInfo, sensitive: array<bool>, created: seq<bool>, fanDuty: int)
    requires sensitive.Length == |MenuItems()| && |created| == |MenuItems()|
    modifies share, sensitive
    ensures share.State() == SetFanSpec(old(share.State()), fanDuty)
    ensures forall i :: 0 <= i < sensitive.Length ==>
              sensitive[i] == (if created[i] then Sensitive(MenuItems()[i], fanDuty) else old(sensitive[i]))
  {
    share.SetFan(fanDuty);
    ToggleMenuItems(sensitive, created, fanDuty);
  }
}
