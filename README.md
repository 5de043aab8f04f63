# climviz RRTM dashboard, modelled in Dafny

climviz is a Dash web application for exploring a single-column radiative transfer model (RRTM,
driven through climlab). This project models its core:

- the RRTM page's callbacks. These are the exploration graphs with their three indicator cards,
  the "find equilibrium" button, the two-parameter sensitivity sweep, the datasets list with its
  delete buttons, the points table, the contour figures and the saved points;
- the older version of the same page;
- the parameter table and the number inputs that write the options store;
- the model-side helpers: option validation, the idealized temperature profile, the idealized
  column and the equilibrium search;
- the layout helpers: grid, application shell, tabs, cards and indicator cards;
- the navigation bar that groups report parts into menus and submenus;
- the small identifier and data-access helpers.

The session stores become Dafny objects where the source mutates them in place. A Python
dictionary is the class `Dicts.OrderedDict`: a key sequence in insertion order plus a map. The
sensitivity sweep is an imperative method over four `array2` result grids. It is proved against
a specification of the grid (`SweepSpec`), and its properties are lemmas (`SweepProperties`).
The physics is not modelled. `calc_olr`, `scipy.optimize.root_scalar`, `odeint` and
climlab's column levels are function-valued parameters, so every statement holds for any flux
model and any root finder, unless it names a stated assumption such as a root finder that stays
in its bracket.

Modules, in dependency order:

- `Wrappers`: `Option`, `Result`, and the Python exception kinds the code can raise.
- `Strings`: the `sub in s` test.
- `Utils`, `DataManager`: the helpers.
- `Dicts`: the insertion-ordered dictionary.
- `DivBased`: the options store's JSON and the custom number input.
- `DmcBased`, `Layout`: the cards and layout.
- `NavbarComponent`: the navbar.
- `RrtmModel`: the model module.
- `RrtmParams`: the parameter table and selectors.
- `SweepSpec`, `RrtmPage`, `SweepProperties`: the sweep's specification, the sweep method itself,
  and properties of the sweep.
- `RrtmCallbacks`: the other callbacks of the current page.
- `LegacyRrtmPage`: the parts of the old page that differ. Its run_sensitivity (climviz/pages/rrtm.py:612-679),
  delete_item (435-451), eq_temperature_callback (532-547), create_sensitivity_figures (558-591) and
  update_sensitivity_points_table (688-710) repeat the current page's code statement for statement. They are
  modelled by the same members: `RrtmPage.RunSweep`, `RrtmCallbacks.DeleteItem`,
  `RrtmCallbacks.EqTemperatureCallback`, `RrtmCallbacks.SensitivityFigures` and `RrtmCallbacks.PointsTable`.

## Model

| member | source | states |
|---|---|---|
| Utils.MakePrefixer | climviz/helpers/utils.py:2-6 | For every argument, the closure's result is exactly the prefix followed by the argument. |
| Utils.MakePageIdFunc | climviz/helpers/utils.py:9-10 | Every id of a page is the page name, a dash, then the local id. |
| Utils.MakeIdFromLabel | climviz/helpers/utils.py:14-15 | The id has the label's length. Each space becomes a dash and each ASCII upper-case letter its lower-case form. Every other character is kept, so the id has no space and no ASCII upper-case letter. |
| Utils.MakeIdFromLabelIdempotent | climviz/helpers/utils.py:14-15 | Converting an id again leaves it unchanged. |
| Strings.ContainsFromIsWindow | climviz/pages/rrtm/rrtm.py:387-388 | The `in` test used by the sweep succeeds exactly when some window of the string equals the substring. |
| DataManager.GetDataWithKey | climviz/helpers/data_manager.py:1-3 | The result is Some exactly when the key is present, and then holds that key's value. Otherwise it is None. |
| DataManager.GetDataWithKeys | climviz/helpers/data_manager.py:6-8 | There is one entry per requested key: the stored value where present, None where absent. |
| DataManager.CreateDataGetter | climviz/helpers/data_manager.py:11-13 | The getter agrees with get_data_with_key for its key, on every dictionary. |
| Dicts.OrderedDict.LastValue | climviz/pages/rrtm/rrtm.py:441 | `list(d.values())[-1]` is the value of the most recently inserted key. It is IndexError exactly when the dictionary is empty. |
| Dicts.OrderedDict.Put | climviz/pages/rrtm/rrtm.py:425 | After `d[k] = v`, k maps to v and nothing else changes. A new key goes last; an existing key keeps its position. |
| Dicts.OrderedDict.DeleteAt | climviz/pages/rrtm/rrtm.py:209-210 | Deleting the n-th key removes exactly that key and its entry, and keeps the others in order. It is IndexError, with the dictionary unchanged, exactly when n is past the end. |
| DivBased.UpsertEntry | climviz/components/div_based.py:185-193 | The result fails with TypeError exactly when a number sits under the id. A new id gets `{value, min, max}`. An existing object gets only its "value" replaced. Every other key is unchanged. |
| DivBased.NumberInput.constructor | climviz/components/div_based.py:138-163 | The input records its id, label, value, bounds, step, size, store id and custom key unchanged. |
| DivBased.NumberInput.Updated | climviz/components/div_based.py:181-207 | The update writes only under its top key: the id, or the custom key. Every other store key is unchanged. |
| DivBased.NumberInput.UpdateFailsOnlyOnNumbers | climviz/components/div_based.py:181-207 | The update raises exactly when a number stands where the code indexes an object. |
| DivBased.NumberInput.UpdateThenRead | climviz/components/div_based.py:181-207 | After a successful update, the input reads back the value it wrote. |
| DivBased.NumberInput.UpdateIdempotent | climviz/components/div_based.py:181-207 | Writing the same value twice leaves the store as one write does. |
| DivBased.NumberInput.UpdateFunction | climviz/components/div_based.py:181-207 | The passed store object is updated in place and returned. Its contents are those of Updated, and a new top key goes last. It raises TypeError exactly when Updated fails, and then the store is unchanged. |
| DmcBased.IndicatorCard | climviz/components/dmc_based.py:7-20 | The arrow is up exactly for a positive value. The text is red exactly for a negative value. The signed value is shown. |
| DmcBased.ZeroIsDownButGreen | climviz/components/dmc_based.py:8-9 | Zero gets the down arrow and green text. |
| DmcBased.ArrowAgreesWithPrintedSign | climviz/components/dmc_based.py:8-14 | For a non-zero value, the arrow and the colour agree with the sign of the printed number. |
| Layout.CreateGrid | climviz/helpers/layout.py:6-18 | There is one column per entry, in order, each with the entry's content and span. Given options, for a column or for the grid, are passed through unchanged. Missing ones become empty. |
| Layout.CreateAppshell | climviz/helpers/layout.py:21-74 | The children are exactly header, navbar, main, aside, footer, extra, in that order. Each optional one is present exactly when given, and the main part holds the content. The layout arguments are one height or panel entry per given header, navbar, aside or footer. Padding is "md" and the id is "appshell". |
| Layout.ShellArgs | climviz/helpers/layout.py:32-62 | A header or footer adds a height-60 entry under its name. A navbar adds a width-300 "sm" panel collapsed on mobile. An aside adds a width-300 "md" panel collapsed on mobile, not on desktop. No other key appears. |
| Layout.ShellChildrenShape | climviz/helpers/layout.py:21-74 | The shell has one child per given section, plus the main part. A given header is the first child, and a given extra component is the last. |
| Layout.ShellMainOnly | climviz/helpers/layout.py:21-74 | The main part holding the content is among the children, and no other child is a main part. |
| Layout.NatToStringInjective | climviz/helpers/layout.py:106 | Different tab numbers print differently. |
| Layout.MakeTabbedContent | climviz/helpers/layout.py:97-124 | There is one tab and one panel per entry, in order, sharing a value. That value is the entry's own, or else its 1-based position. |
| Layout.DefaultTabValuesDistinct | climviz/helpers/layout.py:97-124 | Without explicit values, no two tabs share a value. |
| Layout.DivInCard | climviz/helpers/layout.py:127-150 | The card's options are the defaults overridden by the div options. The div carries the id and the div options. |
| Layout.DivInCardIgnoresCardOptions | climviz/helpers/layout.py:142-145 | The card_options argument has no effect on the result. |
| Layout.GraphInCard | climviz/helpers/layout.py:153-178 | The graph has id `id_func(prefix + name)`. The card options are the defaults overridden by the given card options. |
| Layout.MakeIndicatorCard | climviz/helpers/layout.py:181-239 | The card is green ↑ exactly for a positive value, blue ↔ exactly for zero, and red ↓ exactly for a negative value. It shows the magnitude. It has a hover text exactly when one is given. |
| Layout.IndicatorCardReadBack | climviz/helpers/layout.py:181-239 | The symbol and the magnitude together give back the indicator value. |
| NavbarComponent.DedupMembers | climviz/components/navbar.py:8-17 | unique_list keeps exactly the input's elements. |
| NavbarComponent.DedupDistinct | climviz/components/navbar.py:8-17 | unique_list has no repeats. |
| NavbarComponent.DedupFirstOccurrenceOrder | climviz/components/navbar.py:8-17 | unique_list lists elements in the order of their first occurrence. |
| NavbarComponent.DedupOfDistinct | climviz/components/navbar.py:8-17 | A list without repeats is returned unchanged. |
| NavbarComponent.DedupIdempotent | climviz/components/navbar.py:8-17 | Applying unique_list twice equals applying it once. |
| NavbarComponent.UniqueList | climviz/components/navbar.py:8-17 | The loop computes the deduplicated list: no repeats and the same elements. |
| NavbarComponent.DefaultPart | climviz/components/navbar.py:44-52 | The write-back gives every part with a menu a submenu ("not_defined" when missing). It changes nothing else. |
| NavbarComponent.Standalone | climviz/components/navbar.py:30-36 | The standalone links are exactly the parts without a "navbar_menu". |
| NavbarComponent.MenuSeq | climviz/components/navbar.py:39-43 | The menus listed are exactly those of the parts that have one. |
| NavbarComponent.SubmenuSeq | climviz/components/navbar.py:44-54 | The submenus collected for a menu are exactly those of its parts, with "not_defined" for a part without one. |
| NavbarComponent.IconLink | climviz/components/navbar.py:62-105 | A link fails with UnboundLocalError exactly when its icon entry is falsy. Otherwise it has an icon exactly when the name has an icon entry. |
| NavbarComponent.ShownName | climviz/components/navbar.py:125-137 | A submenu label reads "Other" exactly for "not_defined" (or a submenu literally named "Other"). |
| NavbarComponent.SubmenuLabel | climviz/components/navbar.py:111-139 | No label is emitted exactly for the only submenu "not_defined", or for a falsy icon entry. Otherwise one label with the shown name and the icon is emitted. |
| NavbarComponent.Matching | climviz/components/navbar.py:140-155 | The items of a submenu are exactly the grouped parts filed under that menu and submenu. |
| NavbarComponent.MenuItems | climviz/components/navbar.py:140-155 | On success there is one menu item per matching part, in order, showing its label and linking to it. |
| NavbarComponent.StandaloneLinks | climviz/components/navbar.py:30-36 | The loop collects the standalone parts in order. |
| NavbarComponent.GroupedMenus | climviz/components/navbar.py:39-43 | The generator yields the menu of every grouped part, in order. |
| NavbarComponent.CollectSubmenus | climviz/components/navbar.py:44-54 | One pass collects a menu's submenus and writes back the missing ones. |
| NavbarComponent.BuildNavTree | climviz/components/navbar.py:38-56 | The nav tree has one key per distinct menu, in order, mapping to that menu's distinct submenus. The report parts are written back. |
| NavbarComponent.DropdownStep | climviz/components/navbar.py:110-155 | One more submenu appends its section (its label, then its items) to the dropdown, unless the dropdown or that submenu's items fail. |
| NavbarComponent.DropdownIsSections | climviz/components/navbar.py:110-155 | A menu's dropdown is its submenus' sections joined front to back: each submenu's label followed by its menu items. The error is that of the first submenu whose items fail. |
| NavbarComponent.DropdownErrSticks | climviz/components/navbar.py:110-155 | A dropdown that fails on one submenu fails as a whole with that error. |
| NavbarComponent.Navbar.constructor | climviz/components/navbar.py:21-60 | The navbar keeps its arguments. The standalone links, the nav tree and the written-back report parts are as computed above. |
| NavbarComponent.Navbar.Grouped | climviz/components/navbar.py:145-149 | The grouped parts are exactly the report parts that are not standalone. |
| NavbarComponent.Navbar.MenuEntries | climviz/components/navbar.py:108-167 | On success there is one hover menu per menu. Its target is a navbar link captioned by the menu, with no href. |
| NavbarComponent.Navbar.MenuEntriesAt | climviz/components/navbar.py:108-167 | create_links' menus fail exactly when one menu's dropdown or target fails. Otherwise hover menu i is menu i's target link together with its dropdown. |
| NavbarComponent.Navbar.SingleEntries | climviz/components/navbar.py:168-173 | On success there is one link per standalone part, named by its label. |
| NavbarComponent.Navbar.BuildDropdown | climviz/components/navbar.py:110-155 | The inner loop builds the dropdown of a menu, or fails as the specification does. |
| NavbarComponent.Navbar.MenuLinks | climviz/components/navbar.py:108-167 | The outer loop builds the hover menus of every menu in tree order. |
| NavbarComponent.Navbar.SingleLinks | climviz/components/navbar.py:168-173 | The last loop builds the standalone links in order. |
| NavbarComponent.Navbar.MenuEntriesErrSticks | climviz/components/navbar.py:108-167 | A failure on one menu makes create_links fail with that error. |
| NavbarComponent.Navbar.CreateLinks | climviz/components/navbar.py:107-174 | create_links returns the hover menus followed by the standalone links. It fails exactly when one of them fails. |
| RrtmModel.AbsorberTemplateNineZeroGases | climviz/models/rrtm.py:141-151 | The absorber template holds exactly the nine gases, each at zero. |
| RrtmModel.MakeOptions | climviz/models/rrtm.py:17-44 | Options are accepted exactly when every field is known and numeric, the humidity is in [0, 1] and the surface temperature is in [200, 320]. Missing fields take their defaults. Everything else is a ValueError. |
| RrtmModel.DefaultOptionsAccepted | climviz/models/rrtm.py:22-41 | With no fields given, the defaults are accepted. |
| RrtmModel.UnknownFieldRejected | climviz/models/rrtm.py:43-44 | An unknown field is rejected, whatever the others hold. |
| RrtmModel.ClampedReversed | climviz/models/rrtm.py:64-67 | The profile is the solver output floored at Tstrat and put back in level order. No level ends below Tstrat. |
| RrtmModel.IdealizedProfile | climviz/models/rrtm.py:60-67 | The profile has one temperature per pressure level. |
| RrtmModel.GenerateIdealizedTempProfile | climviz/models/rrtm.py:60-67 | The in-place clamp on the solver's array gives the floored, re-reversed profile. |
| RrtmModel.ClampKeepsWarmLevels | climviz/models/rrtm.py:66-67 | A level at or above Tstrat keeps its temperature. A colder level is raised to exactly Tstrat. |
| RrtmModel.ColumnState.constructor | climviz/models/rrtm.py:72-74 | The column state has fresh Ts and Tatm arrays over the given levels. |
| RrtmModel.MakeIdealizedColumn | climviz/models/rrtm.py:70-81 | Ts is the SST. Tatm is the idealized profile over the column's own levels, one per layer. |
| RrtmModel.Objective | climviz/models/rrtm.py:90-93 | The objective is the absorbed shortwave minus the outgoing longwave of the flux run at that temperature. |
| RrtmModel.FindEquilibriumSurfaceTemperature | climviz/models/rrtm.py:84-97 | The search starts from 275 K within the bracket [250, 300] K. With a root finder that respects its bracket, the equilibrium lies in [250, 300] K. |
| RrtmParams.IdFuncIsPageIdFunc | climviz/pages/rrtm/common.py:4-7 | id_func is make_page_id_func of the page name "RRTM". |
| RrtmParams.SelectorIdsDistinct | climviz/pages/rrtm/common.py:49-59 | The four selector ids are pairwise different. |
| RrtmParams.DefaultsWithinBounds | climviz/pages/rrtm/common.py:10-43 | Every parameter's default lies within its min and max. |
| RrtmParams.TableIdIsNotSelectorId | climviz/pages/rrtm/common.py:10-52 | The table's "id" (dashed) differs from the selector id (underscored) of the same parameter. |
| RrtmParams.Co2IdIsConcentration | climviz/pages/rrtm/common.py:11 | The CO2 selector id contains "concentration". |
| RrtmParams.Ch4IdIsConcentration | climviz/pages/rrtm/common.py:19 | The CH4 selector id contains "concentration". |
| RrtmParams.RelHumidityIdIsNoConcentration | climviz/pages/rrtm/common.py:27 | The humidity selector id does not contain "concentration". |
| RrtmParams.SurfaceTemperatureIdIsNoConcentration | climviz/pages/rrtm/common.py:35 | The surface temperature selector id does not contain "concentration". |
| RrtmParams.ConcentrationParams | climviz/pages/rrtm/common.py:10-43 | Exactly the two gas parameters carry the substring that the sweep's unit rule tests. |
| RrtmParams.BuildSelectors | climviz/pages/rrtm/common.py:49-59 | There is one number input per parameter, in table order, built from its row and writing to the options store. |
| SweepSpec.Linspace | climviz/pages/rrtm/rrtm.py:374-375 | The result is Ok exactly for a non-negative count, with that many points. It starts at lo and, for two or more points, ends at hi. A negative count is a ValueError. |
| SweepSpec.LinspaceEvenlySpaced | climviz/pages/rrtm/rrtm.py:374-375 | Consecutive points are (hi - lo) / (n - 1) apart. |
| SweepSpec.Overlay | climviz/pages/rrtm/rrtm.py:387-388 | At a grid point, both swept keys hold their (scaled) values, and parameter 2 wins when the two coincide. Every other key is unchanged. |
| SweepSpec.NumberAt | climviz/pages/rrtm/rrtm.py:392-401 | A parameter lookup succeeds exactly when the key holds a number, and returns it. |
| SweepSpec.AbsorbersOf | climviz/pages/rrtm/rrtm.py:390-396 | The absorbers are the template with CO2 and CH4 set to their parameters divided by 1e6. It succeeds exactly when both lookups do. |
| SweepSpec.LookupsOkAtEveryPoint | climviz/pages/rrtm/rrtm.py:387-401 | Whether the lookups succeed does not depend on the grid values. |
| SweepSpec.LookupsAtOrigin | climviz/pages/rrtm/rrtm.py:387-401 | The lookups succeed at one grid point exactly when the grid is evaluable. |
| SweepSpec.PointAt | climviz/pages/rrtm/rrtm.py:398-409 | A grid point carries its two parameter values, and its net flux is OLR - ASR. |
| SweepSpec.SweepOrder | climviz/pages/rrtm/rrtm.py:385-423 | Record a·n2 + b of the sweep is grid point (a, b): parameter 1 is the outer loop and parameter 2 the inner. |
| SweepSpec.ValuesMap | climviz/pages/rrtm/rrtm.py:381 | rrtm_params has the options' keys, each mapped to its entry's "value". |
| SweepSpec.PointParams | climviz/pages/rrtm/rrtm.py:381-388 | The single parameter dict, overwritten in place, holds exactly grid point (i, j)'s parameters when that point is evaluated. |
| SweepSpec.PointFailure | climviz/pages/rrtm/rrtm.py:385-409 | A grid point whose lookup or array write fails makes the whole sweep fail. |
| SweepSpec.GridDone | climviz/pages/rrtm/rrtm.py:383-423 | After the last row, the records are the whole grid in row-major order and the grid succeeded. |
| RrtmPage.ParamValues | climviz/pages/rrtm/rrtm.py:381 | The comprehension succeeds exactly when every option entry is an object with a "value". The new dict has the options' keys in order, each mapped to its value. |
| RrtmPage.OverlayPoint | climviz/pages/rrtm/rrtm.py:387-388 | After the two assignments, the dict is grid point (i, j)'s parameters. |
| RrtmPage.EvaluateAt | climviz/pages/rrtm/rrtm.py:390-409 | The lookups, the flux run and the equilibrium search succeed exactly when the four lookups do, and give the point's values. |
| RrtmPage.StoreZ | climviz/pages/rrtm/rrtm.py:404-407 | The cell of Z1 .. Z4 holds OLR, ASR, OLR - ASR and the equilibrium temperature. Every other cell is unchanged. |
| RrtmPage.SweepPoint | climviz/pages/rrtm/rrtm.py:387-423 | One grid point succeeds exactly when its lookups succeed and its Z index is in bounds. Its record carries the point's values, the shared parameter dict and both labels. |
| RrtmPage.ExtendRow | climviz/pages/rrtm/rrtm.py:386-423 | One inner iteration extends the row by grid point (i, j), or fails only when the sweep fails. |
| RrtmPage.SweepRow | climviz/pages/rrtm/rrtm.py:386-423 | The inner loop yields row i of the grid, or fails only when the sweep fails. |
| RrtmPage.ExtendGrid | climviz/pages/rrtm/rrtm.py:385-423 | One outer iteration appends row i to the records. |
| RrtmPage.SweepGrid | climviz/pages/rrtm/rrtm.py:385-423 | The outer loop yields every row of the grid, row after row, or fails only when the sweep fails. |
| RrtmPage.SweepRecords | climviz/pages/rrtm/rrtm.py:374-423 | The sweep succeeds exactly when the counts are non-negative, the options have values, the lookups succeed and every Z write is in bounds. Its records are then the grid points in row-major order. |
| RrtmPage.RunSweep | climviz/pages/rrtm/rrtm.py:360-427 | On success, the dataset is stored under its name in the passed store, which is returned. Other datasets are untouched. On failure the store is unchanged. |
| SweepProperties.RecordCount | climviz/pages/rrtm/rrtm.py:383-423 | An n1-by-n2 sweep yields n1·n2 records. |
| SweepProperties.RecordAt | climviz/pages/rrtm/rrtm.py:385-423 | Record a·n2 + b carries the values of grid point (a, b), and its net flux is OLR - ASR. |
| SweepProperties.ZIndexInBounds | climviz/pages/rrtm/rrtm.py:376-407 | As written, every `Z[j, i]` write is in bounds exactly when n1 = n2 or the grid is empty. Corrected, `Z[i, j]` is always in bounds. |
| SweepProperties.SweptConcentrationDividedTwice | climviz/pages/rrtm/rrtm.py:387-396 | As written, a gas swept as parameter 1 reaches the absorbers divided by 1e12. This differs from the ppm conversion for every non-zero value. |
| SweepProperties.SweptConcentrationDividedOnce | climviz/pages/rrtm/rrtm.py:387-396 | Corrected, a gas swept as parameter 1 is converted from ppm once. |
| SweepProperties.SweptParam2DividedTwice | climviz/pages/rrtm/rrtm.py:388-396 | As written, a gas swept as parameter 2 also reaches the absorbers divided by 1e12, even when parameter 1 names the same gas. This differs from the ppm conversion for every non-zero value. |
| SweepProperties.SweptParam2DividedOnce | climviz/pages/rrtm/rrtm.py:388-396 | Corrected, a gas swept as parameter 2 is converted from ppm once. |
| SweepProperties.UnsweptConcentrationDividedOnce | climviz/pages/rrtm/rrtm.py:390-396 | A gas that is not swept reaches the absorbers as its stored ppm value divided by 1e6. |
| SweepProperties.SameParameterTwice | climviz/pages/rrtm/rrtm.py:387-388 | Sweeping one parameter against itself gives it parameter 2's value. The outer value then has no effect. |
| SweepProperties.EqTempIgnoresSurfaceTemperature | climviz/pages/rrtm/rrtm.py:398-409 | The equilibrium temperature of a grid point does not depend on the surface temperature parameter. |
| RrtmCallbacks.DatasetsList | climviz/pages/rrtm/rrtm.py:166-185 | There is one row per stored dataset, in store order. Row i shows dataset i's name, and its delete button carries index i. |
| RrtmCallbacks.ClickedIndices | climviz/pages/rrtm/rrtm.py:203 | The clicked indices are non-empty exactly when some listed button has a non-zero count. Each one is a button index. |
| RrtmCallbacks.FirstClickDecides | climviz/pages/rrtm/rrtm.py:203-209 | When several buttons have counts, the first in list order decides the deleted position. |
| RrtmCallbacks.ClickedRowIsDeleted | climviz/pages/rrtm/rrtm.py:169-209 | Clicking only row i's trash button of the datasets list selects dataset i. |
| RrtmCallbacks.DeleteItem | climviz/pages/rrtm/rrtm.py:196-212 | Without a click there is no update. Otherwise the chosen dataset is deleted in place and the store returned. The callback raises IndexError, with the store unchanged, exactly when the position is past the end. |
| RrtmCallbacks.SavePoint | climviz/pages/rrtm/rrtm.py:469-475 | None becomes a new dict holding only this point. A dict gets the point upserted in place. The list the store starts with raises TypeError. |
| RrtmCallbacks.SaveIntoInitialStore | climviz/pages/rrtm/rrtm.py:119-122 | Saving into the store's initial data fails as written and succeeds corrected, giving a one-entry dict. |
| RrtmCallbacks.PointsTable | climviz/pages/rrtm/rrtm.py:436-458 | The table has one row per record of the last dataset, in order, copying its eight fields. It is IndexError exactly when the store is empty. |
| RrtmCallbacks.LastAfterStore | climviz/pages/rrtm/rrtm.py:425-441 | After storing a dataset under a new name, or under the name that was already last, the last dataset is the one stored. Under an earlier name, the last dataset stays the one that was last before. |
| RrtmCallbacks.ContourOf | climviz/pages/rrtm/rrtm.py:313-335 | Entry k of a contour has record k's two parameter values as x and y and its quantity as z. The title is the quantity's name followed by " Sensitivity Analysis". The axis titles are the first record's two parameter labels. |
| RrtmCallbacks.SensitivityFigures | climviz/pages/rrtm/rrtm.py:306-339 | There is no update exactly for an empty store. The callback raises IndexError exactly when the last dataset is empty. Otherwise the update is the four contours (OLR, ASR, net flux, equilibrium temperature) of the last dataset. |
| RrtmCallbacks.FiguresOfGrid | climviz/pages/rrtm/rrtm.py:311-323 | For a stored sweep, point a·n2 + b of each of the four figures has grid point (a, b)'s two values as x and y. The net-flux figure is the OLR figure minus the ASR figure. |
| RrtmCallbacks.OptionNumber | climviz/pages/rrtm/rrtm.py:226-234 | `rrtm_options[id]["value"]` succeeds exactly when the entry has a numeric value. KeyError is for a missing id or "value", and TypeError otherwise. |
| RrtmCallbacks.SelectorValueReachesGraph | climviz/components/div_based.py:181-207 | A value a selector writes into the options store is the value the callbacks read. |
| RrtmCallbacks.GraphAbsorbers | climviz/pages/rrtm/rrtm.py:226-232 | The absorbers are the template with CO2 and CH4 set to the stored ppm values divided by 1e6. |
| RrtmCallbacks.ColumnRunOf | climviz/pages/rrtm/rrtm.py:226-236 | The column run succeeds exactly when the four lookups do. It runs calc_olr with the stored SST and humidity at Tstrat 195 K. |
| RrtmCallbacks.UpdateRrtmGraph | climviz/pages/rrtm/rrtm.py:223-270 | The first indicator card is the radiation balance, the second the incoming shortwave (-ASR) and the third the OLR. Each card reads back its value. |
| RrtmCallbacks.BalanceCardSign | climviz/pages/rrtm/rrtm.py:241-266 | As written, the balance card is green exactly when OLR > ASR. Corrected, it is green exactly when the column gains energy, and equals the equilibrium objective. |
| RrtmCallbacks.EqTemperatureCallback | climviz/pages/rrtm/rrtm.py:280-295 | The button returns the equilibrium of the stored gases and humidity, at Tstrat 195 K. It fails exactly when a lookup fails. |
| RrtmCallbacks.EqTemperatureIndependentOfSst | climviz/pages/rrtm/rrtm.py:280-295 | The result does not depend on the stored surface temperature, and lies in [250, 300] K for a root finder that respects its bracket. |
| RrtmCallbacks.EquilibriumZeroesBalance | climviz/pages/rrtm/rrtm.py:273-295 | When the search finds a true root, writing it into the SST input makes the corrected balance card read zero, in blue. |
| LegacyRrtmPage.SavePoint | climviz/pages/rrtm.py:720-725 | None becomes a new list holding this point. Otherwise the point is appended in place, and earlier entries are kept. |
| LegacyRrtmPage.UpdateRrtmGraph | climviz/pages/rrtm.py:462-522 | The three delta indicators are the incoming shortwave (-ASR), the OLR and the balance OLR - ASR, in that output order, all with reference 0. |
| LegacyRrtmPage.SameNumbersOtherSlots | climviz/pages/rrtm.py:462-522 | The old page shows the same three numbers as the current page, in different slots. |

## Left out

- Physics is not modelled:
  - `calc_olr`, climlab's RRTMG and water-vapour processes, `odeint` with `pseudoadiabat`, and `scipy.optimize.root_scalar` are parameters (`FluxModel`, `Integrator`, `RootFinder`);
  - `climlab.column_state` is the `LevelGrid` parameter;
  - the model says nothing about their numerics.
- `calc_olr` and `root_scalar` are taken as total. `FluxModel` always returns a radiation result, so a climlab failure is not modelled. `RootFinder` always returns a temperature, so scipy's ValueError for a bracket [250, 300] whose ends give the objective the same sign is not modelled. The members below therefore promise success where the source can still raise.
- RrtmModel.FindEquilibriumSurfaceTemperature: scipy's bracket ValueError and a search that does not converge are not modelled.
- SweepSpec.Evaluate: a failure of `calc_olr` or `root_scalar` at a grid point is not modelled.
- RrtmPage.EvaluateAt: a failure of `calc_olr` or `root_scalar` at a grid point is not modelled. Only failed option lookups make it fail.
- RrtmPage.SweepRecords: fails only on counts and option lookups, never in the physics.
- RrtmPage.RunSweep: fails only on counts and option lookups, never in the physics.
- RrtmCallbacks.ColumnRunOf: fails only on option lookups, never in `calc_olr`.
- RrtmCallbacks.UpdateRrtmGraph: fails only on option lookups, never in `calc_olr`.
- RrtmCallbacks.EqTemperatureCallback: fails only on option lookups, never in `calc_olr` or `root_scalar`.
- LegacyRrtmPage.UpdateRrtmGraph: fails only on option lookups, never in `calc_olr`.
- `convert_pressure_to_altitude`, `make_fig_atm_profile` and `make_fig_rad_profile` are not modelled. They are plotting and unit helpers with no state or logic beyond numpy and plotly calls. The two profile figures appear only as the `ColumnRun` they are drawn from.
- Floating point: reals are exact. NaN, infinities and rounding in `np.linspace` and in the divisions by 1e6 are not modelled.
- RrtmCallbacks.UpdateRrtmGraph: the balance is not rounded to two decimals (`round(net_flux, 2)`). Rounding is not modelled.
- LegacyRrtmPage.UpdateRrtmGraph: the balance is not rounded to two decimals, for the same reason.
- Layout.MakeIndicatorCard: the text `f"{symbol} {abs(x):.2f} {unit}"` is kept as its parts (symbol, magnitude, unit) rather than formatted.
- DmcBased.IndicatorCard: the `:.2f` formatting of the shown value is not modelled.
- Utils.MakeIdFromLabel: only ASCII letters A-Z are lower-cased. Python's `str.lower` also maps other upper-case letters, and some of them to more than one character, which the model does not capture.
- Plotly and Mantine styling (sizes, colours, colour scales, radii, heights) and the component trees are left out. Only the data and text a reader sees are modelled.
- Dash wiring is not modelled: the callback decorators, `prevent_initial_call`, `dash.ALL` pattern matching, session storage and the unused `n_clicks` arguments. Callbacks are called directly with their inputs, and `dash.no_update` is `NoUpdate`.
- `ic(...)` debug output is left out because it has no effect on results.
- The option store's JSON is numbers and objects only. Key order inside an option entry, strings and `None` values are not modelled.
- RrtmModel.MakeOptions: pydantic's coercion of strings or integers to float, and the nested validation of `absorver_vmr`, are not modelled. A field is accepted only as a number (or a gas table for `absorver_vmr`).
- `n_clicks` values of `None` are taken as 0 (both are falsy), so counts are natural numbers.
- A falsy icon entry (`None` or `""`) is `""` in the icons map.
- `Navbar.create_navbar`, `make_footer`, `make_header`, `make_navbar` and `make_home_card` only assemble components, so they are not modelled.
- The commented-out components in div_based.py and the URL callbacks of the old page are not modelled because they are commented out.
- `DivBasedComponent`, `SelectCompoment`, `MultiSelectComponent`, `MantineComponent` and `create_mantine_component` only register callbacks and wrap components. Only `CustomMantineNumberInput` and its update function are modelled.
- update_sensitivity_datasets_list (both pages) is modelled as the pure row list `RrtmCallbacks.DatasetsList` that `ClickedRowIsDeleted` uses, without the icon components.
- The sweep's arguments `n_1` and `n_2` are integers. Non-integer or `None` counts and min/max values are not modelled.
- climviz/pages/rrtm/exploration.py, sensitivity_analysis.py, app.py and the grey-radiation pages are not part of this model.

## Findings

| source | as written | input that shows it | evidently intended | confidence | as-written member | corrected member |
|---|---|---|---|---|---|---|
| climviz/pages/rrtm/rrtm.py:376-407 | The result grids are allocated n1-by-n2 but written at `Z[j, i]` | n1 = 1, n2 = 2: the write `Z[1, 0]` is out of bounds on a 1-by-2 grid, so the sweep raises IndexError | `Z[i, j]`, always in bounds | not executed | SweepProperties.ZIndexInBounds | RrtmPage.SweepRecords |
| climviz/pages/rrtm/rrtm.py:387-396 | A concentration swept as parameter 1 is divided by 1e6 when overlaid, then again when the absorbers are built | CO2 swept as parameter 1 at 400 ppm reaches the model as 4e-10 instead of 4e-4 | one conversion from ppm, as for unswept gases | not executed | SweepProperties.SweptConcentrationDividedTwice | SweepProperties.SweptConcentrationDividedOnce |
| climviz/pages/rrtm/rrtm.py:388-396 | A concentration swept as parameter 2 is divided by 1e6 when overlaid, then again when the absorbers are built | CH4 swept as parameter 2 at 1.8 ppm reaches the model as 1.8e-12 instead of 1.8e-6 | one conversion from ppm, as for unswept gases | not executed | SweepProperties.SweptParam2DividedTwice | SweepProperties.SweptParam2DividedOnce |
| climviz/pages/rrtm/rrtm.py:119-122 | The saved-points store starts as `[]`, but save_point (469-475) assigns into it by name | the first save with store data `[]`: `saved_points[point_name] = ...` on a list raises TypeError | the store starts as `{}` | not executed | RrtmCallbacks.SavePoint | RrtmCallbacks.SaveIntoInitialStore |
| climviz/pages/rrtm/rrtm.py:241-266 | The balance card shows OLR - ASR, while its hover text says positive values mean a net gain of energy | OLR = 240, ASR = 230: a green ↑ 10 while the column loses 10 W/m² | ASR - OLR, the objective of the equilibrium search | not executed | RrtmCallbacks.BalanceCardSign | RrtmCallbacks.BalanceCardSign |
