/** Layout helpers: grids, the application shell, tabs, cards and indicator cards. */
module Layout {
  import opened Wrappers

  /** A value of a component keyword argument. */
  datatype OptValue = Flag(b: bool) | Text(s: string) | Number(n: int)

  type Options = map<string, OptValue>

  // ---------------------------------------------------------------- create_grid

  /** One entry of `columns_dict`: its "content", "size" and optional "options". */
  datatype ColumnSpec<C> = ColumnSpec(content: C, size: int, options: Option<Options>)

  datatype GridCol<C> = GridCol(content: C, span: int, options: Options)

  datatype Grid<C> = Grid(children: seq<GridCol<C>>, gridOptions: Options)

  /** create_grid: one column per entry, in order, spanning the entry's size. */
  function CreateGrid<C>(columns: seq<ColumnSpec<C>>, gridOptions: Option<Options>): (g: Grid<C>)
    ensures |g.children| == |columns|
    ensures forall i :: 0 <= i < |columns| ==>
      g.children[i].content == columns[i].content && g.children[i].span == columns[i].size
    ensures forall i :: 0 <= i < |columns| && columns[i].options.None? ==> g.children[i].options == map[]
    ensures forall i :: 0 <= i < |columns| && columns[i].options.Some? ==>
      g.children[i].options == columns[i].options.value
    ensures gridOptions.None? ==> g.gridOptions == map[]
    ensures gridOptions.Some? ==> g.gridOptions == gridOptions.value
  {
    var cols := seq(|columns|, i requires 0 <= i < |columns| =>
      GridCol(columns[i].content, columns[i].size,
              if columns[i].options.Some? then columns[i].options.value else map[]));
    Grid(cols, if gridOptions.Some? then gridOptions.value else map[])
  }

  // ------------------------------------------------------------ create_appshell

  /** The children of the application shell, in the order they are appended. */
  datatype ShellPart<C> = HeaderPart(c: C) | NavbarPart(c: C) | MainPart(c: C)
                        | AsidePart(c: C) | FooterPart(c: C) | ExtraPart(c: C)

  /** The entries of `content_args`. */
  datatype ShellArg =
    | Height(height: int)
    | Panel(width: int, breakpoint: string, collapsedMobile: bool, collapsedDesktop: Option<bool>)

  datatype AppShell<C> = AppShell(children: seq<ShellPart<C>>, args: map<string, ShellArg>,
                                  padding: string, id: string)

  function CountGiven<C>(o: Option<C>): nat {
    if o.Some? then 1 else 0
  }

  /** Every main part among `parts` holds `content`. */
  ghost predicate OnlyMain<C>(parts: seq<ShellPart<C>>, content: C) {
    forall i :: 0 <= i < |parts| && parts[i].MainPart? ==> parts[i] == MainPart(content)
  }

  /** The optional sections of the shell. */
  datatype SectionKind = HeaderKind | NavbarKind | AsideKind | FooterKind | ExtraKind

  /** The section `o` contributes to the shell: one part of its kind when given, none otherwise. */
  function Section<C>(o: Option<C>, kind: SectionKind): seq<ShellPart<C>> {
    if o.None? then []
    else match kind
      case HeaderKind => [HeaderPart(o.value)]
      case NavbarKind => [NavbarPart(o.value)]
      case AsideKind => [AsidePart(o.value)]
      case FooterKind => [FooterPart(o.value)]
      case ExtraKind => [ExtraPart(o.value)]
  }

  /** The shell's children: header, navbar, main, aside, footer, extra, each only when given. */
  function ShellChildren<C>(content: C, header: Option<C>, navbar: Option<C>, footer: Option<C>,
                            aside: Option<C>, extra: Option<C>): seq<ShellPart<C>>
  {
    Section(header, HeaderKind) + Section(navbar, NavbarKind) + [MainPart(content)]
    + Section(aside, AsideKind) + Section(footer, FooterKind) + Section(extra, ExtraKind)
  }

  /** The shell has one child per given section plus the main part; the header comes first and the extra component last. */
  lemma ShellChildrenShape<C>(content: C, header: Option<C>, navbar: Option<C>, footer: Option<C>,
                              aside: Option<C>, extra: Option<C>)
    ensures var cs := ShellChildren(content, header, navbar, footer, aside, extra);
      |cs| == 1 + CountGiven(header) + CountGiven(navbar) + CountGiven(aside) + CountGiven(footer) + CountGiven(extra) &&
      (header.Some? ==> cs[0] == HeaderPart(header.value)) &&
      (extra.Some? ==> cs[|cs| - 1] == ExtraPart(extra.value))
  {
    var hs, es := Section(header, HeaderKind), Section(extra, ExtraKind);
    var cs := ShellChildren(content, header, navbar, footer, aside, extra);
    var middle := Section(navbar, NavbarKind) + [MainPart(content)] + Section(aside, AsideKind)
                  + Section(footer, FooterKind);
    assert cs == hs + middle + es;
    if header.Some? {
      assert cs[0] == hs[0];
    }
    if extra.Some? {
      assert cs[|cs| - 1] == es[0];
    }
  }

  /** The content is the shell's one main part: every section before and after it is of another kind. */
  lemma ShellMainOnly<C>(content: C, header: Option<C>, navbar: Option<C>, footer: Option<C>,
                         aside: Option<C>, extra: Option<C>)
    ensures var cs := ShellChildren(content, header, navbar, footer, aside, extra);
      MainPart(content) in cs && OnlyMain(cs, content)
  {
    var before := Section(header, HeaderKind) + Section(navbar, NavbarKind);
    var after := Section(aside, AsideKind) + Section(footer, FooterKind) + Section(extra, ExtraKind);
    var cs := ShellChildren(content, header, navbar, footer, aside, extra);
    assert cs == before + [MainPart(content)] + after;
    assert forall i :: 0 <= i < |before| ==> !before[i].MainPart?;
    assert forall i :: 0 <= i < |after| ==> !after[i].MainPart?;
    assert cs[|before|] == MainPart(content);
  }

  /** `args` with `key` set to `v` when the section `o` is given. */
  function AddIf<C>(args: map<string, ShellArg>, o: Option<C>, key: string, v: ShellArg): map<string, ShellArg> {
    if o.Some? then args[key := v] else args
  }

  /** The layout arguments of the shell: a height or panel entry for each given section. */
  function ShellArgs<C>(header: Option<C>, navbar: Option<C>, footer: Option<C>, aside: Option<C>): (args: map<string, ShellArg>)
    ensures ("header" in args) == header.Some?
    ensures ("navbar" in args) == navbar.Some?
    ensures ("aside" in args) == aside.Some?
    ensures ("footer" in args) == footer.Some?
    ensures args.Keys <= {"header", "navbar", "aside", "footer"}
    ensures "header" in args ==> args["header"] == Height(60)
    ensures "footer" in args ==> args["footer"] == Height(60)
    ensures "navbar" in args ==> args["navbar"] == Panel(300, "sm", true, None)
    ensures "aside" in args ==> args["aside"] == Panel(300, "md", true, Some(false))
  {
    AddIf(AddIf(AddIf(AddIf(map[], header, "header", Height(60)), navbar, "navbar", Panel(300, "sm", true, None)),
                aside, "aside", Panel(300, "md", true, Some(false))),
          footer, "footer", Height(60))
  }

  /** create_appshell: each optional section is added, with its layout argument, exactly when given. */
  method CreateAppshell<C>(content: C, header: Option<C>, navbar: Option<C>, footer: Option<C>,
                           aside: Option<C>, extra: Option<C>)
    returns (shell: AppShell<C>)
    ensures ("header" in shell.args) == header.Some?
    ensures ("navbar" in shell.args) == navbar.Some?
    ensures ("aside" in shell.args) == aside.Some?
    ensures ("footer" in shell.args) == footer.Some?
    ensures shell.args.Keys <= {"header", "navbar", "aside", "footer"}
    ensures "header" in shell.args ==> shell.args["header"] == Height(60)
    ensures "footer" in shell.args ==> shell.args["footer"] == Height(60)
    ensures "navbar" in shell.args ==> shell.args["navbar"] == Panel(300, "sm", true, None)
    ensures "aside" in shell.args ==> shell.args["aside"] == Panel(300, "md", true, Some(false))
    ensures shell.args == ShellArgs(header, navbar, footer, aside)
    ensures shell.children == ShellChildren(content, header, navbar, footer, aside, extra)
    ensures |shell.children| == 1 + CountGiven(header) + CountGiven(navbar) + CountGiven(aside)
                                       + CountGiven(footer) + CountGiven(extra)
    ensures MainPart(content) in shell.children
    ensures OnlyMain(shell.children, content)
    ensures header.Some? ==> shell.children[0] == HeaderPart(header.value)
    ensures extra.Some? ==> shell.children[|shell.children| - 1] == ExtraPart(extra.value)
    ensures shell.padding == "md" && shell.id == "appshell"
  {
    // Each step appends the section's part, and records its layout argument, only when it is given.
    var children := Section(header, HeaderKind);
    var contentArgs := AddIf(map[], header, "header", Height(60));
    children := children + Section(navbar, NavbarKind);
    contentArgs := AddIf(contentArgs, navbar, "navbar", Panel(300, "sm", true, None));
    children := children + [MainPart(content)];
    children := children + Section(aside, AsideKind);
    contentArgs := AddIf(contentArgs, aside, "aside", Panel(300, "md", true, Some(false)));
    children := children + Section(footer, FooterKind);
    contentArgs := AddIf(contentArgs, footer, "footer", Height(60));
    children := children + Section(extra, ExtraKind);
    shell := AppShell(children, contentArgs, "md", "appshell");
    ShellChildrenShape(content, header, navbar, footer, aside, extra);
    ShellMainOnly(content, header, navbar, footer, aside, extra);
  }

  // -------------------------------------------------------- make_tabbed_content

  /** Python's str() of a natural number. */
  function NatToString(n: nat): (s: string)
    ensures |s| >= 1
    ensures n >= 10 ==> |s| >= 2
    decreases n
  {
    if n < 10 then [Digit(n)] else NatToString(n / 10) + [Digit(n % 10)]
  }

  function Digit(d: nat): char
    requires d < 10
  {
    "0123456789"[d]
  }

  lemma DigitInjective(a: nat, b: nat)
    requires a < 10 && b < 10 && Digit(a) == Digit(b)
    ensures a == b
  {
  }

  /** Different numbers have different decimal spellings. */
  lemma {:induction false} NatToStringInjective(a: nat, b: nat)
    requires NatToString(a) == NatToString(b)
    ensures a == b
    decreases a
  {
    var s := NatToString(a);
    if a < 10 && b < 10 {
      DigitInjective(a, b);
    } else if a >= 10 && b >= 10 {
      assert s[|s| - 1] == Digit(a % 10) == Digit(b % 10);
      DigitInjective(a % 10, b % 10);
      assert NatToString(a / 10) == s[..|s| - 1] == NatToString(b / 10);
      NatToStringInjective(a / 10, b / 10);
    }
  }

  /** One value of `content_dict`: its children, optional "value" and extra arguments. */
  datatype TabContent<C> = TabContent(children: C, value: Option<string>,
                                      extraTabArgs: Options, extraPanelArgs: Options)

  datatype Tab = Tab(name: string, value: string, args: Options)
  datatype TabPanel<C> = TabPanel(children: C, value: string, mt: string, args: Options)
  datatype Tabs<C> = Tabs(tabs: seq<Tab>, panels: seq<TabPanel<C>>, value: string, id: string)

  /** The value given to the entry at position i: its own "value", else i + 1. */
  function TabValue<C>(content: TabContent<C>, i: nat): string {
    if content.value.Some? then content.value.value else NatToString(i + 1)
  }

  /** make_tabbed_content: one tab and one panel per entry, sharing the entry's value. */
  function MakeTabbedContent<C>(contentDict: seq<(string, TabContent<C>)>, id: string, value: string)
    : (t: Tabs<C>)
    ensures |t.tabs| == |contentDict| && |t.panels| == |contentDict|
    ensures forall i :: 0 <= i < |contentDict| ==>
      t.tabs[i].name == contentDict[i].0 && t.panels[i].children == contentDict[i].1.children
    ensures forall i :: 0 <= i < |contentDict| ==> t.tabs[i].value == t.panels[i].value
    ensures forall i :: 0 <= i < |contentDict| && contentDict[i].1.value.None? ==>
      t.tabs[i].value == NatToString(i + 1)
    ensures forall i :: 0 <= i < |contentDict| && contentDict[i].1.value.Some? ==>
      t.tabs[i].value == contentDict[i].1.value.value
    ensures t.value == value && t.id == id
  {
    var tabs := seq(|contentDict|, i requires 0 <= i < |contentDict| =>
      Tab(contentDict[i].0, TabValue(contentDict[i].1, i), contentDict[i].1.extraTabArgs));
    var panels := seq(|contentDict|, i requires 0 <= i < |contentDict| =>
      TabPanel(contentDict[i].1.children, TabValue(contentDict[i].1, i), "md",
               contentDict[i].1.extraPanelArgs));
    Tabs(tabs, panels, value, id)
  }

  /** Without explicit values every tab gets its own value, so no two tabs collide. */
  lemma DefaultTabValuesDistinct<C>(contentDict: seq<(string, TabContent<C>)>, id: string, value: string)
    requires forall i :: 0 <= i < |contentDict| ==> contentDict[i].1.value.None?
    ensures var t := MakeTabbedContent(contentDict, id, value);
      forall i, j :: 0 <= i < j < |contentDict| ==> t.tabs[i].value != t.tabs[j].value
  {
    var t := MakeTabbedContent(contentDict, id, value);
    forall i, j | 0 <= i < j < |contentDict| ensures t.tabs[i].value != t.tabs[j].value {
      if t.tabs[i].value == t.tabs[j].value {
        NatToStringInjective(i + 1, j + 1);
      }
    }
  }

  // ------------------------------------------------ div_in_card, graph_in_card

  /** The card options both helpers start from. */
  const DefaultCardOptions: Options :=
    map["withBorder" := Flag(true), "shadow" := Text("sm"), "radius" := Text("md"), "padding" := Number(0)]

  function OrEmpty(o: Option<Options>): Options {
    if o.Some? then o.value else map[]
  }

  datatype CardChild = Div(id: string, options: Options) | Graph(id: string, options: Options)
  datatype Card = Card(children: seq<CardChild>, options: Options)

  /** div_in_card: the div options, not the card options, are merged over the defaults. */
  function DivInCard(id: string, divOptions: Option<Options>, cardOptions: Option<Options>): (card: Card)
    ensures card.children == [Div(id, OrEmpty(divOptions))]
    ensures card.options.Keys == DefaultCardOptions.Keys + OrEmpty(divOptions).Keys
    ensures forall k :: k in OrEmpty(divOptions) ==> card.options[k] == OrEmpty(divOptions)[k]
    ensures forall k :: k in DefaultCardOptions && k !in OrEmpty(divOptions) ==>
      card.options[k] == DefaultCardOptions[k]
  {
    var div := OrEmpty(divOptions);
    var merged := DefaultCardOptions + div;
    Card([Div(id, div)], merged)
  }

  /** The `card_options` argument of div_in_card has no effect on the card. */
  lemma DivInCardIgnoresCardOptions(id: string, divOptions: Option<Options>,
                                    c1: Option<Options>, c2: Option<Options>)
    ensures DivInCard(id, divOptions, c1) == DivInCard(id, divOptions, c2)
  {
  }

  /** graph_in_card: a graph with id `idFunc(prefix + name)`, card options merged over the defaults. */
  function GraphInCard(name: string, idFunc: string -> string, prefix: string,
                       graphOptions: Option<Options>, cardOptions: Option<Options>): (card: Card)
    ensures card.children == [Graph(idFunc(prefix + name), OrEmpty(graphOptions))]
    ensures card.options.Keys == DefaultCardOptions.Keys + OrEmpty(cardOptions).Keys
    ensures forall k :: k in OrEmpty(cardOptions) ==> card.options[k] == OrEmpty(cardOptions)[k]
    ensures forall k :: k in DefaultCardOptions && k !in OrEmpty(cardOptions) ==>
      card.options[k] == DefaultCardOptions[k]
  {
    Card([Graph(idFunc(prefix + name), OrEmpty(graphOptions))], DefaultCardOptions + OrEmpty(cardOptions))
  }

  /** The default graph prefix of graph_in_card. */
  const GraphPrefix := "rrtm_graph_"

  // --------------------------------------------------------- make_indicator_card

  /** What make_indicator_card shows: title, optional hover text, symbol, magnitude, unit and colour. */
  datatype IndicatorCard = IndicatorCard(title: string, hover: Option<string>, symbol: string,
                                         magnitude: real, unit: string, color: string)

  function Abs(x: real): real {
    if x < 0.0 then -x else x
  }

  /** make_indicator_card: green up for positive, blue sideways for zero, red down for negative. */
  function MakeIndicatorCard(indicator: real, title: string, unit: string, hoverText: Option<string>)
    : (card: IndicatorCard)
    ensures (card.color == "green" && card.symbol == "↑") <==> indicator > 0.0
    ensures (card.color == "blue" && card.symbol == "↔") <==> indicator == 0.0
    ensures (card.color == "red" && card.symbol == "↓") <==> indicator < 0.0
    ensures card.magnitude >= 0.0 && (card.magnitude == indicator || card.magnitude == -indicator)
    ensures card.hover.Some? <==> hoverText.Some?
    ensures card.hover == hoverText && card.title == title && card.unit == unit
  {
    var style :=
      if indicator > 0.0 then ("green", "↑")
      else if indicator == 0.0 then ("blue", "↔")
      else ("red", "↓");
    IndicatorCard(title, hoverText, style.1, Abs(indicator), unit, style.0)
  }

  /** The value a reader recovers from a card: the magnitude, negated under a down arrow. */
  function ReadBack(card: IndicatorCard): real {
    if card.symbol == "↓" then -card.magnitude else card.magnitude
  }

  /** Symbol and magnitude together determine the indicator: the card loses no information. */
  lemma IndicatorCardReadBack(indicator: real, title: string, unit: string, hoverText: Option<string>)
    ensures ReadBack(MakeIndicatorCard(indicator, title, unit, hoverText)) == indicator
  {
  }
}
