/** The main tab bar: the route-to-icon table, the icon family per route, the highlight of the
    focused tab, and the value each tab press records as focused. */
module MainAppScreen {
  import opened Common

  /** `getIconName`: the fixed icon of each known route. */
  const IconTable: map<string, string> := map[
    "QR-Scanner" := "qr-code-scanner",
    "Ajustes" := "settings",
    "Promociones" := "ticket-percent-outline",
    "Sucursal" := "storefront-outline",
    "Perfil" := "address-card"]

  const DefaultIcon := "circle"

  function IconName(routeName: string): string
  {
    if routeName in IconTable then IconTable[routeName] else DefaultIcon
  }

  /** The five known routes get five different icons, none of them the default; every other
      route gets the default. */
  lemma IconNameCases(routeName: string, other: string)
    ensures IconName(routeName) == DefaultIcon <==> routeName !in IconTable
    ensures routeName in IconTable && other in IconTable && routeName != other ==>
              IconName(routeName) != IconName(other)
  {
    assert "qr-code-scanner"[0] != DefaultIcon[0];
    assert "settings"[0] != DefaultIcon[0];
    assert "ticket-percent-outline"[0] != DefaultIcon[0];
    assert "storefront-outline"[0] != DefaultIcon[0];
    assert "address-card"[0] != DefaultIcon[0];
    if routeName in IconTable && other in IconTable && routeName != other {
      assert "settings"[1] != "storefront-outline"[1];
    }
  }

  /** The icon library each route is drawn with. */
  datatype IconFamily = MaterialIcons | MaterialCommunityIcons | SimpleLineIcons | Ionicons | FontAwesome

  /** The four routes tested in the icon callback each get their own library; every other
      route, "Perfil" among them, falls through to FontAwesome. */
  function FamilyOf(routeName: string): (r: IconFamily)
    ensures routeName == "QR-Scanner" <==> r == MaterialIcons
    ensures routeName == "Promociones" <==> r == MaterialCommunityIcons
    ensures routeName == "Ajustes" <==> r == SimpleLineIcons
    ensures routeName == "Sucursal" <==> r == Ionicons
    ensures r == FontAwesome <==> routeName !in {"QR-Scanner", "Promociones", "Ajustes", "Sucursal"}
  {
    if routeName == "QR-Scanner" then MaterialIcons
    else if routeName == "Promociones" then MaterialCommunityIcons
    else if routeName == "Ajustes" then SimpleLineIcons
    else if routeName == "Sucursal" then Ionicons
    else FontAwesome
  }

  const HighlightColor := "rgb(0, 122, 140)"

  /** A tab's icon takes the highlight colour exactly when the recorded focus equals its
      route name; otherwise it keeps the colour the tab bar gives it. */
  function IconColor(focusedTab: Option<string>, routeName: string, color: string): (r: string)
    ensures focusedTab == Some(routeName) ==> r == HighlightColor
    ensures focusedTab != Some(routeName) ==> r == color
  {
    if focusedTab == Some(routeName) then HighlightColor else color
  }

  /** A registered tab: its route name and what its press handler records as focused. */
  datatype Tab = Tab(name: string, focusValue: string)

  const Tabs: seq<Tab> := [
    Tab("QR-Scanner", "Inicio"),
    Tab("Promociones", "Descuentos"),
    Tab("Sucursal", "Sucursal"),
    Tab("Perfil", "Credencial")]

  /** Pressing tab `i` highlights tab `j` exactly when both are the "Sucursal" tab: the other
      press handlers record values that match no route. */
  lemma OnlySucursalHighlights(i: nat, j: nat)
    requires i < |Tabs| && j < |Tabs|
    ensures Some(Tabs[i].focusValue) == Some(Tabs[j].name) <==> i == 2 && j == 2
  {
    assert "Inicio"[0] !in {'Q', 'P', 'S'};
    assert "Descuentos"[0] !in {'Q', 'P', 'S'};
    assert "Credencial"[0] !in {'Q', 'P', 'S'};
    assert "Sucursal"[0] != "QR-Scanner"[0] && "Sucursal"[0] != "Promociones"[0];
    assert "Sucursal"[0] != "Perfil"[0];
  }

  class MainTabsState {
    var focusedTab: Option<string>

    constructor ()
      ensures focusedTab.None?
    {
      focusedTab := None;
    }

    /** A press on tab `i` records its focus value. */
    method TabPress(i: nat)
      requires i < |Tabs|
      modifies this`focusedTab
      ensures focusedTab == Some(Tabs[i].focusValue)
    {
      focusedTab := Some(Tabs[i].focusValue);
    }
  }
}
