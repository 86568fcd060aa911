/**
 The theme menu: a palette button that opens and closes a list of four theme
 options, each of which sets the theme and closes the list. The theme itself
 lives in a shared context that is not modelled; here it is a plain field.
 */
module ThemeMenu {

  datatype ThemeOption = ThemeOption(name: string, caption: string, color: string)

  /** The options, in display order. */
  const Themes: seq<ThemeOption> := [
    ThemeOption("dark", "Dark", "cyber-primary"),
    ThemeOption("light", "Light", "cyber-secondary"),
    ThemeOption("cyberpunk", "Cyberpunk", "cyber-pink"),
    ThemeOption("neon", "Neon", "cyber-accent")
  ]

  /** No two options share a name. */
  lemma ThemeNamesDistinct()
    ensures forall i, j :: 0 <= i < j < |Themes| ==> Themes[i].name != Themes[j].name
  {
  }

  /** The current theme and whether the option list is open. */
  datatype Menu = Menu(theme: string, isOpen: bool)

  /** The menu as mounted: closed, showing whatever theme the context holds. */
  function InitialMenu(theme: string): (m: Menu)
    ensures !m.isOpen && m.theme == theme
  {
    Menu(theme, false)
  }

  /** The palette button: open a closed list, close an open one. */
  function ToggleOpen(m: Menu): (r: Menu)
    ensures r.isOpen != m.isOpen
    ensures r.theme == m.theme
  {
    m.(isOpen := !m.isOpen)
  }

  lemma ToggleTwice(m: Menu)
    ensures ToggleOpen(ToggleOpen(m)) == m
  {
  }

  /** Clicking option k: the theme becomes that option's and the list closes. */
  function Select(m: Menu, k: nat): (r: Menu)
    requires k < |Themes|
    ensures r.theme == Themes[k].name
    ensures !r.isOpen
  {
    Menu(Themes[k].name, false)
  }

  /** Choosing the theme already in use changes nothing but closing the
      list, and choosing the same option twice is the same as once. */
  lemma SelectIdempotent(m: Menu, k: nat)
    requires k < |Themes|
    ensures m.theme == Themes[k].name ==> Select(m, k) == m.(isOpen := false)
    ensures Select(Select(m, k), k) == Select(m, k)
  {
  }

  /** One rendered option: its caption and whether it is marked as current. */
  datatype OptionView = OptionView(caption: string, active: bool)

  /** The option list as rendered: empty while closed; while open, every
      option in order, marked exactly when its name is the current theme. */
  function Options(m: Menu): (r: seq<OptionView>)
    ensures |r| == (if m.isOpen then |Themes| else 0)
    ensures forall i :: 0 <= i < |r| ==> r[i].caption == Themes[i].caption
    ensures forall i :: 0 <= i < |r| ==> (r[i].active <==> Themes[i].name == m.theme)
  {
    if m.isOpen then seq(|Themes|, i requires 0 <= i < |Themes| => OptionView(Themes[i].caption, Themes[i].name == m.theme))
    else []
  }

  /** At most one option is marked, whatever the theme; exactly one when the
      theme is one of the four names and the list is open. */
  lemma AtMostOneMarked(m: Menu)
    ensures forall i, j ::
              (0 <= i < |Options(m)| && 0 <= j < |Options(m)| && Options(m)[i].active && Options(m)[j].active) ==> i == j
    ensures m.isOpen && (exists k :: 0 <= k < |Themes| && Themes[k].name == m.theme) ==>
              exists k :: 0 <= k < |Options(m)| && Options(m)[k].active
  {
    ThemeNamesDistinct();
    if m.isOpen && (exists k :: 0 <= k < |Themes| && Themes[k].name == m.theme) {
      var k :| 0 <= k < |Themes| && Themes[k].name == m.theme;
      assert Options(m)[k].active;
    }
  }

  /** After a selection the list is gone; reopening it marks the chosen option. */
  lemma SelectionIsMarked(m: Menu, k: nat)
    requires k < |Themes|
    ensures Options(Select(m, k)) == []
    ensures Options(ToggleOpen(Select(m, k)))[k].active
  {
  }
}
