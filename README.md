# P&G Reformas — a verified model of the application core

P&G Reformas is a single-page application for a renovation business. This project models in Dafny the
logic its pages and hooks keep in their event handlers and derived values, close to the code:

- **Budget builder.** Service lookup in a copy of the catalogue, line items with derived material
  quantities, totals and instalments, and the seeded schedule.
- **Budget preview.** The printable document as a function of its props.
- **Service catalogue editor.**
- **Menu-preference store.** Moves within a section, drag reordering, visibility toggles, section
  changes and settings.
- **Local authentication store.** A 32-bit string hash, register, login, logout and password reset.
- **Stage schedule.** Status and progress are coupled, the overall progress is an average, and projects
  and stages can be created, edited and deleted.
- **Ledger and reports.** Validation, saving with a sort by date, delete and toggle, totals, category
  tabs, the month summary, per-project groups and the margin.
- **Gallery.** A phone mask, the WhatsApp link and the room filter.
- **The smaller registries.** Budgets, diary appointments, delivery checklists, tools, professionals and
  suppliers.

Each source file with handlers becomes one module, named after its page or hook. Helper modules:

- `Wrappers`: Option and Result.
- `Seqs`: filter, find, count, sum, remove/insert at an index, and swap, with their laws.
- `Text`:
  - ASCII lower-casing and JavaScript's `trim`;
  - substring search;
  - decimal rendering and `parseInt`;
  - the lexicographic order of strings.
- `Numbers`: `Math.round` and `Math.ceil` over exact reals.

The form follows the source:

- Most pages compute new lists with `map`/`filter`/spread, so their handlers are functions from the old
  state to the new state.
- Where the source updates state step by step, the model does too:
  - the budget builder, the service editor, the menu store, the auth store and the ledger are classes
    whose methods modify their fields;
  - the menu store swaps and splices array slots;
  - the ledger sorts an array in place;
  - the string hash and the per-project grouping are loops.
- Each of these methods is proved against a specification function.

Clocks, ids (`Date.now()`), "today", the random temporary password, `parseFloat` and
`encodeURIComponent` are parameters.

## Model

| member | source | states |
|---|---|---|
| NovoOrcamento.FindServiceById | src/pages/NovoOrcamento.tsx:191 | the service found has the selected id; none is found exactly when no catalogue entry has it |
| NovoOrcamento.FindServiceByName | src/pages/NovoOrcamento.tsx:227 | the lookup of updateItemQuantity is by name: the entry found has that name, and none is found iff no entry has it |
| NovoOrcamento.DeriveMaterials | src/pages/NovoOrcamento.tsx:195-199 | one material per template, in template order, name and unit copied, quantity in [qpu·q, qpu·q + 0.01) and a whole number of hundredths |
| NovoOrcamento.MaterialFor | src/pages/NovoOrcamento.tsx:196-198 | one material: name and unit copied, quantity rounded up to the next hundredth |
| NovoOrcamento.NewItem | src/pages/NovoOrcamento.tsx:201-210 | the new item copies the service's name, unit and price, has an empty description, total = quantity × price and the derived materials |
| NovoOrcamento.WithQuantity | src/pages/NovoOrcamento.tsx:221-242 | the new quantity with total q × unitPrice; materials recomputed from the entry with the same name, or kept when none matches; id, name, unit and price unchanged |
| NovoOrcamento.Subtotal | src/pages/NovoOrcamento.tsx:244-245 | the reduce over the item totals (grown by NovoOrcamento.SubtotalAppend) |
| NovoOrcamento.SubtotalAppend | src/pages/NovoOrcamento.tsx:244-245 | adding an item adds exactly its total to the subtotal |
| NovoOrcamento.Materialize | src/pages/NovoOrcamento.tsx:248-251 | the instalments keep length, order, descriptions and percentages, and each value is total × percentage / 100 |
| NovoOrcamento.MaterializedValuesSum | src/pages/NovoOrcamento.tsx:248-251 | the instalment values add up to total × (sum of percentages) / 100 |
| NovoOrcamento.MaterializedValuesSumToTotal | src/pages/NovoOrcamento.tsx:248-251 | when the percentages add up to 100 the instalments add up to the total exactly |
| NovoOrcamento.GenerateSchedule | src/pages/NovoOrcamento.tsx:656-667 | with items: one row per item with its service as the task and "Semana i+1" as the week; with none: the fixed three-row default |
| NovoOrcamento.GeneratedWeeksDistinct | src/pages/NovoOrcamento.tsx:656-667 | the seeded week labels are pairwise distinct |
| NovoOrcamento.CatalogNamesDistinct | src/pages/NovoOrcamento.tsx:72-128 | the built-in catalogue has no two services with the same name, so the lookup by name is unambiguous |
| NovoOrcamento.FindByNameOfEntry | src/pages/NovoOrcamento.tsx:227 | in a catalogue with distinct names, looking up an entry's name finds that entry |
| NovoOrcamento.NewItemConsistent | src/pages/NovoOrcamento.tsx:190-215 | a freshly added item's total and materials agree with its quantity |
| NovoOrcamento.BudgetBuilder.constructor | src/pages/NovoOrcamento.tsx:72-128 | the page starts with its catalogue, no items, the default instalments, no schedule and quantity 1 |
| NovoOrcamento.BudgetBuilder.AddItem | src/pages/NovoOrcamento.tsx:190-215 | nothing changes for an unknown service id; otherwise exactly one new item is appended, the total grows by quantity × price and the form resets |
| NovoOrcamento.BudgetBuilder.RemoveItem | src/pages/NovoOrcamento.tsx:217-219 | every item with that id goes, the others stay in order |
| NovoOrcamento.BudgetBuilder.UpdateItemQuantity | src/pages/NovoOrcamento.tsx:221-242 | only the items with that id change, each as WithQuantity says; the list keeps its length |
| NovoOrcamento.BudgetBuilder.UpdatePaymentPercentage | src/pages/NovoOrcamento.tsx:253-257 | only that instalment's percentage changes |
| NovoOrcamento.BudgetBuilder.UpdatePaymentDescription | src/pages/NovoOrcamento.tsx:270-274 | only that instalment's description changes |
| NovoOrcamento.BudgetBuilder.AddPaymentStep | src/pages/NovoOrcamento.tsx:259-264 | appends {"Nova etapa", 0%} |
| NovoOrcamento.BudgetBuilder.RemovePaymentStep | src/pages/NovoOrcamento.tsx:266-268 | removes exactly that index (an index outside the list removes nothing) |
| NovoOrcamento.BudgetBuilder.SeedSchedule | src/pages/NovoOrcamento.tsx:656-667 | the schedule becomes the one generated from the items |
| NovoOrcamento.BudgetBuilder.UpdateScheduleTask | src/pages/NovoOrcamento.tsx:576-581 | only that row's task changes |
| NovoOrcamento.BudgetBuilder.UpdateScheduleWeek | src/pages/NovoOrcamento.tsx:586-591 | only that row's week changes |
| NovoOrcamento.BudgetBuilder.RemoveScheduleRow | src/pages/NovoOrcamento.tsx:598 | removes exactly that row |
| NovoOrcamento.BudgetBuilder.AddScheduleRow | src/pages/NovoOrcamento.tsx:608 | appends an empty row |
| BudgetPreview.ItemRows | src/components/budget/BudgetPreview.tsx:146-156 | one row per item, in input order, numbered 1..n, showing the item's service, quantity, unit and total |
| BudgetPreview.RowTotalsSum | src/components/budget/BudgetPreview.tsx:90-91 | the row totals add up to the grand total the document shows |
| BudgetPreview.RowsFrom | src/components/budget/BudgetPreview.tsx:146-156 | rows of a suffix of the items carry their global numbers |
| BudgetPreview.RowTotalsSumFrom | src/components/budget/BudgetPreview.tsx:90-91 | the totals of the rows from k on add up to the subtotal of the items from k on |
| BudgetPreview.GroupRows | src/components/budget/BudgetPreview.tsx:187-212 | one row per material of an item; only the first carries the service label, with rowSpan = the number of materials |
| BudgetPreview.MaterialRows | src/components/budget/BudgetPreview.tsx:187-212 | the materials table has exactly as many rows as all items have materials together |
| BudgetPreview.GroupStart | src/components/budget/BudgetPreview.tsx:187-212 | item k's group starts after the materials of the items before it |
| BudgetPreview.MaterialRowAt | src/components/budget/BudgetPreview.tsx:187-212 | row GroupStart(k) + j of the table is row j of item k's group: rows are grouped by item in item order |
| BudgetPreview.MaterialCountPositive | src/components/budget/BudgetPreview.tsx:172 | there are material rows iff some item has a material |
| BudgetPreview.ClientLine | src/components/budget/BudgetPreview.tsx:117-118 | the client line is the name, then the address and the phone when present |
| BudgetPreview.Social | src/components/budget/BudgetPreview.tsx:294-297 | the footer holds exactly the links the company shows, each carrying the company's own website, handle, page or place, in the order website, Instagram, Facebook, Google Business (so each at most once) |
| BudgetPreview.Render | src/components/budget/BudgetPreview.tsx:74-86 | the defaults ("001", today, empty schedule); total = subtotal; the materials section iff some item has materials; the schedule section iff the schedule is non-empty; payments shown unchanged; "A definir" for an empty address |
| Servicos.FilteredServices | src/pages/Servicos.tsx:193-197 | a service is listed iff its lower-cased name contains the lower-cased search and the filter is "all" or its category; order and multiplicities are kept |
| Servicos.EmptySearchListsAll | src/pages/Servicos.tsx:193-197 | an empty search with "all" lists the whole catalogue |
| Servicos.WithField | src/pages/Servicos.tsx:170-180 | updating one field of a material changes that field only |
| Servicos.NamedMaterials | src/pages/Servicos.tsx:199-209 | keeps exactly the materials whose trimmed name is non-empty |
| Servicos.ReplaceById | src/pages/Servicos.tsx:216-221 | services with the edited id become the edited service; the others and all ids stay |
| Servicos.ReplaceByIdIdempotent | src/pages/Servicos.tsx:216-221 | saving the same edit twice is the same as saving it once |
| Servicos.ServiceEditor.constructor | src/pages/Servicos.tsx:153-168 | the editor starts with the catalogue, an empty search, filter "all", an empty draft and both dialogs closed |
| Servicos.ServiceEditor.Listing | src/pages/Servicos.tsx:193-197 | the listed services are exactly those Listed by the current search and filter |
| Servicos.ServiceEditor.AddMaterial | src/pages/Servicos.tsx:153-168 | appends a blank "un", 1 material to the edited service when editing, otherwise to the draft list |
| Servicos.ServiceEditor.UpdateMaterial | src/pages/Servicos.tsx:170-180 | only that field of row i changes, in the edited service or in the draft |
| Servicos.ServiceEditor.RemoveMaterial | src/pages/Servicos.tsx:182-191 | removes exactly row i, the others stay in order |
| Servicos.ServiceEditor.AddService | src/pages/Servicos.tsx:199-209 | disabled without a name, a category or a non-zero price; otherwise the new service goes first with its named materials and the draft resets |
| Servicos.ServiceEditor.EditService | src/pages/Servicos.tsx:211-214 | the dialog edits the chosen service |
| Servicos.ServiceEditor.SaveEdit | src/pages/Servicos.tsx:216-221 | nothing happens when nothing is edited or the save button is disabled; otherwise services with the edited id are replaced and the dialog closes |
| Servicos.ServiceEditor.DeleteService | src/pages/Servicos.tsx:223-225 | removes every service with that id and keeps the rest |
| MenuPreferences.DefaultIdsUnique | src/hooks/useMenuPreferences.ts:50-79 | the default menu has distinct ids |
| MenuPreferences.MovedItems | src/hooks/useMenuPreferences.ts:134-157 | moving always yields a permutation of the items; an unknown id changes nothing |
| MenuPreferences.MoveAt | src/hooks/useMenuPreferences.ts:140-155 | the move of the item at an index is a permutation |
| MenuPreferences.SwapWithId | src/hooks/useMenuPreferences.ts:147 | the destructuring swap is a permutation |
| MenuPreferences.SectionSplit | src/hooks/useMenuPreferences.ts:140-142 | with unique ids, the item's place in its section list is the number of its section-mates before it |
| MenuPreferences.OtherIdBefore | src/hooks/useMenuPreferences.ts:144-147 | a section-mate before the item has another id |
| MenuPreferences.FindUnique | src/hooks/useMenuPreferences.ts:138 | with unique ids, findIndex of an item's id finds that item |
| MenuPreferences.MoveUpSwapsWithPrevious | src/hooks/useMenuPreferences.ts:144-147 | "up" swaps with the nearest earlier item of the same section, and changes nothing for the first item of a section |
| MenuPreferences.MoveDownSwapsWithNext | src/hooks/useMenuPreferences.ts:148-152 | "down" swaps with the nearest later item of the same section, and changes nothing for the last one |
| MenuPreferences.MoveAtDown | src/hooks/useMenuPreferences.ts:148-152 | the "down" branch swaps with the next member of the section list |
| MenuPreferences.SwapKeepsUnique | src/hooks/useMenuPreferences.ts:147 | a swap keeps the ids unique |
| MenuPreferences.MovedKeepsUnique | src/hooks/useMenuPreferences.ts:134-157 | moving keeps the ids unique |
| MenuPreferences.Toggled | src/hooks/useMenuPreferences.ts:160-169 | only the matching item's visibility flips |
| MenuPreferences.ToggleTwice | src/hooks/useMenuPreferences.ts:160-169 | toggling twice is the identity |
| MenuPreferences.Resectioned | src/hooks/useMenuPreferences.ts:171-180 | only the matching item's section changes |
| MenuPreferences.ResectionedKeepsOrder | src/hooks/useMenuPreferences.ts:171-180 | the menu order (the sequence of ids) is unchanged and ids stay unique |
| MenuPreferences.Reordered | src/hooks/useMenuPreferences.ts:190-206 | a permutation, and unchanged when either id is missing |
| MenuPreferences.ReorderedMoves | src/hooks/useMenuPreferences.ts:197-201 | the active item lands at the over index and the other items keep their relative order |
| MenuPreferences.ReorderedKeepsUnique | src/hooks/useMenuPreferences.ts:190-206 | reordering keeps the ids unique |
| MenuPreferences.Patched | src/hooks/useMenuPreferences.ts:182-188 | each given setting overrides, the others and the items are kept |
| MenuPreferences.PatchedLaws | src/hooks/useMenuPreferences.ts:182-188 | an empty patch changes nothing and applying a patch twice equals applying it once |
| MenuPreferences.SwapSlots | src/hooks/useMenuPreferences.ts:147 | the array swap computes Swap |
| MenuPreferences.SpliceMove | src/hooks/useMenuPreferences.ts:199-200 | the in-place splice pair computes "remove at a, insert at o" |
| MenuPreferences.ShiftLeft | src/hooks/useMenuPreferences.ts:199 | the slots between two indices move one place left, the rest stay |
| MenuPreferences.ShiftRight | src/hooks/useMenuPreferences.ts:200 | the slots between two indices move one place right, the rest stay |
| MenuPreferences.SplicedBySource | src/hooks/useMenuPreferences.ts:199-200 | a list that agrees with the shifted slots is the spliced list |
| MenuPreferences.MenuStore.constructor | src/hooks/useMenuPreferences.ts:50-79 | the store starts with the default preferences |
| MenuPreferences.MenuStore.MoveItem | src/hooks/useMenuPreferences.ts:134-157 | only the items change, as MovedItems says; ids stay unique |
| MenuPreferences.MenuStore.ToggleVisibility | src/hooks/useMenuPreferences.ts:160-169 | only the items change, as Toggled says |
| MenuPreferences.MenuStore.MoveToSection | src/hooks/useMenuPreferences.ts:171-180 | only the items change, as Resectioned says |
| MenuPreferences.MenuStore.UpdateSettings | src/hooks/useMenuPreferences.ts:182-188 | the preferences become the patched ones; the items never change |
| MenuPreferences.MenuStore.ReorderItems | src/hooks/useMenuPreferences.ts:190-206 | only the items change, as Reordered says |
| MenuPreferences.MenuStore.ResetToDefault | src/hooks/useMenuPreferences.ts:208-211 | the default preferences are restored |
| Auth.ToInt32 | src/contexts/AuthContext.tsx:31 | the 32-bit signed value congruent to x modulo 2³² |
| Auth.ToInt32OfCongruent | src/contexts/AuthContext.tsx:30-31 | congruent inputs wrap to the same 32-bit value |
| Auth.CodeUnits | src/contexts/AuthContext.tsx:29 | the UTF-16 code units of a string, each below 0x10000 |
| Auth.Step | src/contexts/AuthContext.tsx:30-31 | one hash step, 31·h + unit wrapped to 32 bits |
| Auth.StepAsWritten | src/contexts/AuthContext.tsx:30-31 | `((h << 5) - h) + c` followed by `h & h` is the same step |
| Auth.Fold | src/contexts/AuthContext.tsx:27-32 | the fold stays a 32-bit value |
| Auth.FoldAppend | src/contexts/AuthContext.tsx:28-32 | folding one more unit is one more step |
| Auth.HashValue | src/contexts/AuthContext.tsx:26-32 | the hash is a 32-bit signed integer |
| Auth.Base36Nat | src/contexts/AuthContext.tsx:33 | base-36 digits of a natural, never starting with '-' |
| Auth.Base36 | src/contexts/AuthContext.tsx:33 | `toString(36)`: a leading '-' exactly for negative values |
| Auth.Base36NatRoundTrip | src/contexts/AuthContext.tsx:33 | reading the base-36 digits back gives the number |
| Auth.DigitRoundTrip | src/contexts/AuthContext.tsx:33 | each base-36 digit reads back as its value |
| Auth.Base36RoundTrip | src/contexts/AuthContext.tsx:33 | signed base-36 rendering reads back as the number |
| Auth.HashString | src/contexts/AuthContext.tsx:26-34 | the rendered hash reads back as the 32-bit hash value |
| Auth.SimpleHash | src/contexts/AuthContext.tsx:26-34 | the loop computes the fold of 31·h + c over the code units, rendered in base 36 |
| Auth.LoginOutcome | src/contexts/AuthContext.tsx:66-77 | "Usuário não encontrado" iff no user has the normalised email; otherwise success exactly when the first user with that email has the password's hash, which with unique emails is every such user, and "Senha incorreta" else |
| Auth.Normalize | src/contexts/AuthContext.tsx:67 | `email.trim().toLowerCase()`: empty iff the email is blank, no ASCII capital, no whitespace at either end |
| Auth.NormalizeIdempotent | src/contexts/AuthContext.tsx:67 | normalising a normalised email changes nothing, so a stored email matches itself at login, register and reset |
| Auth.RegisterError | src/contexts/AuthContext.tsx:85-101 | registration is accepted iff the normalised email is non-empty, the password has at least 6 code units and no user has that email; a rejection gets "Preencha todos os campos" for an empty email or password, otherwise "A senha deve ter pelo menos 6 caracteres" for a short password, otherwise "Este email já está cadastrado" for a taken email, checked in that order |
| Auth.RegisteredCanLogIn | src/contexts/AuthContext.tsx:66-115 | after a successful register(e, p), login(e, p) succeeds |
| Auth.ResetThenLogIn | src/contexts/AuthContext.tsx:122-137 | after a reset, login succeeds exactly with a password hashing like the new one |
| Auth.AuthStore.constructor | src/contexts/AuthContext.tsx:40-51 | the store starts from the stored users and session |
| Auth.AuthStore.Login | src/contexts/AuthContext.tsx:66-83 | the outcome is LoginOutcome; users never change; the session is set to the normalised email on success and untouched on failure |
| Auth.AuthStore.Register | src/contexts/AuthContext.tsx:85-115 | on a rejection nothing changes; otherwise exactly one user {email, hash} is appended and logged in; emails stay unique |
| Auth.AuthStore.Logout | src/contexts/AuthContext.tsx:117-120 | clears the session and the user, keeps the users |
| Auth.AuthStore.ResetPassword | src/contexts/AuthContext.tsx:122-137 | fails on an unknown email without change; otherwise only that user's hash changes, to the new password's; the session is kept |
| Cronograma.InitialState | src/pages/Cronograma.tsx:132-133 | the first project is selected, or none when there are none, and the auto-select effect leaves that state as it is |
| Cronograma.AutoSelect | src/pages/Cronograma.tsx:155-159 | with no selection and some project, the first one becomes selected; otherwise nothing changes |
| Cronograma.SelectedProject | src/pages/Cronograma.tsx:149 | the project found has the selected id, and none is found iff no project has it |
| Cronograma.ProgressSum | src/pages/Cronograma.tsx:162 | the reduce adding up the stages' progress (bounded by Cronograma.ProgressSumBounds) |
| Cronograma.ProgressSumBounds | src/pages/Cronograma.tsx:161-163 | with every progress in 0..100 the sum lies in 0..100·n |
| Cronograma.TotalProgress | src/pages/Cronograma.tsx:161-163 | round(Σ progress / max(n, 1)), and 0 without a selected project |
| Cronograma.TotalProgressBounds | src/pages/Cronograma.tsx:161-163 | the overall progress lies in 0..100 and is 0 for a project with no stages |
| Cronograma.MapStages | src/pages/Cronograma.tsx:233-241 | only the stages with that id change |
| Cronograma.MapSelected | src/pages/Cronograma.tsx:230-245 | only the selected project changes |
| Cronograma.WithStatus | src/pages/Cronograma.tsx:233-241 | "concluido" sets progress 100, "pendente" sets 0, "em_andamento" keeps it |
| Cronograma.StatusFor | src/pages/Cronograma.tsx:253-256 | progress 0 gives "pendente", 100 gives "concluido", anything else "em_andamento" |
| Cronograma.WithProgress | src/pages/Cronograma.tsx:253-268 | sets the progress and the status it implies |
| Cronograma.StageStatusChange | src/pages/Cronograma.tsx:230-245 | only the stage with that id in the selected project changes; other projects are untouched |
| Cronograma.StageProgressChange | src/pages/Cronograma.tsx:253-268 | only the stage with that id in the selected project changes; other projects are untouched |
| Cronograma.ProgressChangeCouples | src/pages/Cronograma.tsx:253-268 | after a progress change the stages keep progress 0 ⇔ pending and 100 ⇔ done |
| Cronograma.StatusChangeCouples | src/pages/Cronograma.tsx:233-241 | a status change keeps that coupling, unless "em_andamento" is chosen at 0 or 100 |
| Cronograma.SaveStage | src/pages/Cronograma.tsx:189-221 | a blank name, a missing start or a missing end date is rejected in that order; otherwise only the selected project changes, by appending a stage with a fresh id or replacing the edited one under its id |
| Cronograma.FromForm | src/pages/Cronograma.tsx:211 | the stage carries its id and the form's fields |
| Cronograma.SaveProject | src/pages/Cronograma.tsx:289-316 | a blank name or client is rejected; editing changes only name and client; a new project has no stages and becomes selected |
| Cronograma.ConfirmDelete | src/pages/Cronograma.tsx:329-345 | a stage is removed from the selected project only; a deleted project goes, and if it was selected the first remaining one (or none) is selected |
| Cronograma.DeleteProjectSelection | src/pages/Cronograma.tsx:340-345 | after deleting a project none with that id remains and the selection is empty or points at a remaining project |
| Financeiro.DigitValue | src/pages/Financeiro.tsx:96 | a decimal digit's value |
| Financeiro.Pad2 | src/pages/Financeiro.tsx:97 | `padStart(2, "0")` of a month: two digits reading as the month |
| Financeiro.Key | src/pages/Financeiro.tsx:97 | "year-MM", with the dash three from the end |
| Financeiro.MonthKeyAsWritten | src/pages/Financeiro.tsx:95-98 | getMonthYear as written: the date is read as UTC midnight and its local month is taken, so west of UTC the first of a month is filed under the previous month; malformed dates give "NaN-NaN" |
| Financeiro.MonthKey | src/pages/Financeiro.tsx:95-98 | the intended key: the year and month of the ISO date |
| Financeiro.FirstOfMonthMisfiled | src/pages/Financeiro.tsx:95-98 | west of UTC every first of a month gets a key other than its own month |
| Financeiro.FirstOfMarchExample | src/pages/Financeiro.tsx:95-98 | "2024-03-01" is filed under "2024-02" as written and "2024-03" as intended |
| Financeiro.MonthName | src/pages/Financeiro.tsx:102-106 | month names for 1..12, "undefined" otherwise |
| Financeiro.FormatMonthYear | src/pages/Financeiro.tsx:100-107 | a string without a dash formats as "undefined " followed by itself |
| Financeiro.KeyFirstDash | src/pages/Financeiro.tsx:101 | the first dash of a key follows the year |
| Financeiro.Pad2Parses | src/pages/Financeiro.tsx:106 | parseInt of the padded month is the month |
| Financeiro.FormatAtDash | src/pages/Financeiro.tsx:100-107 | with one dash, the month name of the part after it, then the part before it |
| Financeiro.FormatKey | src/pages/Financeiro.tsx:100-107 | formatMonthYear("YYYY-MM") is monthNames[MM−1] + " " + YYYY |
| Financeiro.FormatMonthKey | src/pages/Financeiro.tsx:100-107 | the key of an ISO date formats as its month name and year |
| Financeiro.CommaToPoint | src/pages/Financeiro.tsx:202 | `replace(",", ".")` turns only the first comma into a point |
| Financeiro.BuildTransaction | src/pages/Financeiro.tsx:196-217 | a blank description, empty value or empty date is rejected, then a value that does not parse or is ≤ 0; otherwise the transaction has the parsed positive value, keeps the edited id (else the fresh one), trims the description and drops a blank project |
| Financeiro.Updated | src/pages/Financeiro.tsx:219-228 | editing replaces the transactions with that id; otherwise one is appended |
| Financeiro.Deleted | src/pages/Financeiro.tsx:244-247 | removes the target's id, and nothing without a target |
| Financeiro.FilterKeepsDateDesc | src/pages/Financeiro.tsx:247 | filtering a list sorted by date keeps it sorted |
| Financeiro.DeletedKeepsDateDesc | src/pages/Financeiro.tsx:247 | deleting keeps the ledger sorted by date |
| Financeiro.Toggled | src/pages/Financeiro.tsx:255-258 | only the matching transaction's "received" flag flips |
| Financeiro.ToggleTwice | src/pages/Financeiro.tsx:255-258 | toggling twice is the identity, and toggling keeps the date order |
| Financeiro.InsertDown | src/pages/Financeiro.tsx:231 | one insertion step of the in-place sort: a sorted prefix grows by one, a permutation |
| Financeiro.SortByDateDesc | src/pages/Financeiro.tsx:231 | the array ends sorted by date, newest first, and is a permutation of what it was |
| Financeiro.SortedNewestFirst | src/pages/Financeiro.tsx:231 | the updated list, sorted in an array, comes back newest first with the same transactions |
| Financeiro.MonthFiltered | src/pages/Financeiro.tsx:134-136 | "all" keeps everything; a month keeps exactly the transactions whose ISO date lies in it (the intended key, see Findings) |
| Financeiro.ComputeTotals | src/pages/Financeiro.tsx:139-143 | saldo = received entradas − paid saídas, projected = entradas − saídas |
| Financeiro.TotalOfKind | src/pages/Financeiro.tsx:139-142 | each filtered total equals a sum of per-transaction parts |
| Financeiro.TotalsMeaning | src/pages/Financeiro.tsx:139-143 | the projected balance is the signed sum of the values; with nonnegative values the received part never exceeds its total |
| Financeiro.FilterByCategory | src/pages/Financeiro.tsx:268-279 | "materiais" = material or ferramenta, "equipe" = pagamento or vale, "recebimentos" = recebimento, anything else = all |
| Financeiro.TabsPartition | src/pages/Financeiro.tsx:268-279 | the three tabs together hold every transaction exactly once |
| Financeiro.InsertDesc | src/pages/Financeiro.tsx:131 | inserting into a strictly descending list of months keeps it strictly descending; its members are those of the list plus the new month; a month already present leaves the list unchanged, and a new one makes it one longer |
| Financeiro.AvailableMonths | src/pages/Financeiro.tsx:131 | the distinct months of the ledger, newest first |
| Financeiro.Row | src/pages/Financeiro.tsx:146-156 | a month row has saldo = entradas − saídas |
| Financeiro.Rows | src/pages/Financeiro.tsx:146-156 | one row per month, in order |
| Financeiro.MonthlySummary | src/pages/Financeiro.tsx:146-156 | one row per available month, in descending order, each with saldo = entradas − saídas |
| Financeiro.OverGroupsStep | src/pages/Financeiro.tsx:146-156 | grouping one more transaction adds its share |
| Financeiro.SpreadOnce | src/pages/Financeiro.tsx:146-156 | with distinct groups a transaction counts in at most one |
| Financeiro.OverGroupsEmpty | src/pages/Financeiro.tsx:146-156 | no transactions, no totals |
| Financeiro.OverGroupsTotal | src/pages/Financeiro.tsx:146-156 | when every transaction's key is among distinct groups, the group totals add up to the whole total |
| Financeiro.MonthKindTotalIsGroupTotal | src/pages/Financeiro.tsx:147-149 | a month row's total is that month's group total |
| Financeiro.RowsSum | src/pages/Financeiro.tsx:146-156 | the rows' totals are the group totals over those months |
| Financeiro.MonthlySummaryCoversLedger | src/pages/Financeiro.tsx:146-156 | the month rows' entradas (saídas) add up to the ledger's entradas (saídas) |
| Financeiro.Ledger.constructor | src/pages/Financeiro.tsx:126-128 | the ledger starts from the loaded transactions |
| Financeiro.Ledger.Save | src/pages/Financeiro.tsx:196-237 | a rejected form changes nothing; otherwise the ledger holds exactly the updated transactions, sorted by date descending |
| Financeiro.Ledger.ConfirmDelete | src/pages/Financeiro.tsx:244-253 | the ledger becomes Deleted |
| Financeiro.Ledger.ToggleReceived | src/pages/Financeiro.tsx:255-266 | the ledger becomes Toggled |
| Financeiro.SavedNewIsKept | src/pages/Financeiro.tsx:226-231 | after adding, the new transaction and every old one are in the sorted ledger |
| Relatorios.Margin | src/pages/Relatorios.tsx:98 | profit / revenue × 100 when revenue > 0, else 0 |
| Relatorios.MarginBounds | src/pages/Relatorios.tsx:123 | with nonnegative costs the margin is at most 100; it is negative exactly when costs exceed a positive revenue |
| Relatorios.Summarize | src/pages/Relatorios.tsx:89-98 | profit = revenue − costs and the average margin as Margin says |
| Relatorios.ProjectOf | src/pages/Relatorios.tsx:105 | the project name, or "Sem Projeto" when missing or empty |
| Relatorios.Keys | src/pages/Relatorios.tsx:102-117 | the group keys are distinct and are exactly the transactions' project names |
| Relatorios.KeysFirstOccurrence | src/pages/Relatorios.tsx:114-117 | a transaction's key is present from then on, the keys so far are a prefix of all the keys, and a new key is appended after every key seen before it (Map insertion order) |
| Relatorios.KeysPrefix | src/pages/Relatorios.tsx:114-117 | the keys of a prefix of the transactions are a prefix of the keys of all of them |
| Relatorios.PeriodLabel | src/pages/Relatorios.tsx:124 | "Todos" for "all", otherwise the formatted month |
| Relatorios.MakeReport | src/pages/Relatorios.tsx:117-125 | a report has id index+1, profit = revenue − costs, the margin and the period label |
| Relatorios.ProjectReports | src/pages/Relatorios.tsx:101-126 | one report per key, in first-occurrence order, with that key's revenue and costs |
| Relatorios.GroupTotalStep | src/pages/Relatorios.tsx:104-115 | one more transaction adds its value to its own group only |
| Relatorios.AccumulateStep | src/pages/Relatorios.tsx:104-115 | one forEach step turns the keys and map of the first i transactions into those of the first i + 1 |
| Relatorios.SumsAreGroupTotals | src/pages/Relatorios.tsx:102-115 | the filled map holds exactly the listed projects, each with its income and expense totals, and every other project totals zero |
| Relatorios.Sums | src/pages/Relatorios.tsx:102-115 | the Map after the forEach, each entry created at zero when first seen (its meaning is Relatorios.SumsAreGroupTotals) |
| Relatorios.ReportsFromSums | src/pages/Relatorios.tsx:117-126 | the numbered rows read off the keys and the map are the project reports |
| Relatorios.ComputeProjectReports | src/pages/Relatorios.tsx:101-126 | the Map-mutating loop computes ProjectReports |
| Relatorios.EachTransactionInOneGroup | src/pages/Relatorios.tsx:104-115 | every transaction's key heads exactly one report |
| Relatorios.ReportsSum | src/pages/Relatorios.tsx:117-125 | the reports' revenues and costs are the group totals |
| Relatorios.GroupsAddUpToTotals | src/pages/Relatorios.tsx:102-115 | the group revenues add up to the total revenue and the group costs to the total costs |
| Relatorios.ReportIdsDistinct | src/pages/Relatorios.tsx:118 | report ids are pairwise distinct |
| Relatorios.ActiveProjects | src/pages/Relatorios.tsx:258 | the count of reports other than "Sem Projeto", at most their number |
| Relatorios.ActiveProjectsCount | src/pages/Relatorios.tsx:258 | with distinct keys, all reports but the "Sem Projeto" one if present |
| Galeria.Digits | src/pages/Galeria.tsx:132 | `replace(/\D/g, '')`: exactly the digits of the input, in order |
| Galeria.FormatPhoneMask | src/pages/Galeria.tsx:131-143 | "" without digits, "(dd" up to 2, "(dd) rest" up to 7, "(dd) ddddd-rest" up to 11, truncated to 11 digits beyond |
| Galeria.DigitsConcat | src/pages/Galeria.tsx:132 | the digits of a concatenation are the concatenated digits |
| Galeria.DigitsOfDigits | src/pages/Galeria.tsx:132 | a string of digits is its own digits |
| Galeria.DigitsOpen | src/pages/Galeria.tsx:134 | the digits of "(" + d are d |
| Galeria.DigitsArea | src/pages/Galeria.tsx:137 | the digits of "(a) b" are a + b |
| Galeria.DigitsFull | src/pages/Galeria.tsx:140 | the digits of "(a) b-c" are a + b + c |
| Galeria.MaskDigits | src/pages/Galeria.tsx:131-143 | the mask's digits are the first min(n, 11) input digits, in order |
| Galeria.MaskIdempotent | src/pages/Galeria.tsx:131-143 | masking a masked phone changes nothing |
| Galeria.Message | src/pages/Galeria.tsx:98 | the shared text: project in bold, room, description, the sign-off and both image links (the same text at line 489) |
| Galeria.ShareUrl | src/pages/Galeria.tsx:491-494 | "https://wa.me/55" + digits + "?text=" … when the phone has digits, else "https://wa.me/?text=" … |
| Galeria.MaskedPhoneInUrl | src/pages/Galeria.tsx:491-494 | the link built from the masked phone carries the first min(n, 11) typed digits, or none |
| Galeria.FilteredGallery | src/pages/Galeria.tsx:150-152 | "all" shows everything; a room shows exactly its items |
| Galeria.RoomFilterKeepsAll | src/pages/Galeria.tsx:150-152 | the room filter keeps every item of that room with its multiplicity |
| Orcamentos.StatusChanged | src/pages/Orcamentos.tsx:93-97 | only the status of the budgets with that id changes |
| Orcamentos.StatusChangedTwice | src/pages/Orcamentos.tsx:93-97 | the last status change wins |
| Orcamentos.ApproveMovesCount | src/pages/Orcamentos.tsx:152-154 | approving the one sent budget with an id moves it from the pending card to the approved card |
| Orcamentos.ChangeShiftsCount | src/pages/Orcamentos.tsx:93-97 | changing the status s of the one budget with that id to t adds one to t's count and takes one from s's |
| Orcamentos.ChangedCons | src/pages/Orcamentos.tsx:94-96 | the status map works element by element |
| Orcamentos.UntouchedWithoutId | src/pages/Orcamentos.tsx:94-96 | with no budget of that id, nothing changes |
| Orcamentos.ConfirmDelete | src/pages/Orcamentos.tsx:106-113 | no-op with nothing pending; otherwise exactly the budgets of the pending id go, and the count drops by their number |
| Orcamentos.ConfirmDeleteIdempotent | src/pages/Orcamentos.tsx:106-113 | confirming the same deletion twice equals once |
| Orcamentos.FilteredBudgets | src/pages/Orcamentos.tsx:116-123 | a budget is listed iff the lower-cased search occurs in its client, project or number and the filter is "all" or its status; order and multiplicities kept |
| Orcamentos.EmptySearchListsAll | src/pages/Orcamentos.tsx:116-123 | an empty search with "all" lists everything |
| Orcamentos.TotalValue | src/pages/Orcamentos.tsx:136 | the listed total equals the registry-wide sum of the values of the budgets the search and filter list |
| Orcamentos.TotalValueBounds | src/pages/Orcamentos.tsx:136 | the listed total is the sum over the filtered budgets; with nonnegative values it lies between 0 and the whole registry's total |
| Orcamentos.BudgetStats | src/pages/Orcamentos.tsx:152-154 | total = all budgets, approved = "aprovado" ones, pending = "enviado" ones; approved + pending ≤ total; each is 0 iff no budget has that status |
| Agenda.WithId | src/pages/Agenda.tsx:192 | the form's fields with the given id |
| Agenda.Save | src/pages/Agenda.tsx:160-210 | a blank title, an empty date or an empty time is rejected in that order with its message; editing replaces by id and keeps the id; otherwise one appointment is appended |
| Agenda.Ids | src/pages/Agenda.tsx:188-205 | the ids in list order |
| Agenda.SaveIds | src/pages/Agenda.tsx:188-205 | editing keeps the ids; adding appends exactly the new id |
| Agenda.TodayAppointments | src/pages/Agenda.tsx:117-119 | exactly the appointments dated today |
| Agenda.SelectedDateAppointments | src/pages/Agenda.tsx:129-133 | exactly those of the selected date, none without one |
| Agenda.SavedTodayIsListed | src/pages/Agenda.tsx:201-205 | a new appointment for today joins today's list, at its end |
| Agenda.ConfirmDelete | src/pages/Agenda.tsx:220-230 | removes exactly the target id's appointments when a (non-empty) target is set, and always clears the target |
| Agenda.Before | src/pages/Agenda.tsx:123-127 | the comparator's order: earlier date first, then earlier time (total and transitive by the two lemmas below) |
| Agenda.BeforeTotal | src/pages/Agenda.tsx:123-127 | any two appointments are ordered one way or the other |
| Agenda.BeforeTrans | src/pages/Agenda.tsx:123-127 | the date-then-time order is transitive |
| Agenda.Insert | src/pages/Agenda.tsx:123-127 | inserting into a chronological list keeps it chronological and adds exactly that appointment |
| Agenda.SortChronologically | src/pages/Agenda.tsx:123-127 | a chronological permutation of the input |
| Agenda.UpcomingAppointments | src/pages/Agenda.tsx:121-127 | a permutation of the appointments dated today or later, sorted by date then time |
| Agenda.TodayIsUpcoming | src/pages/Agenda.tsx:117-122 | today's appointments are all upcoming |
| Agenda.TodayComesFirst | src/pages/Agenda.tsx:121-127 | in the upcoming list nothing dated later precedes one of today's |
| Checklist.InitialState | src/pages/Checklist.tsx:58-59 | the first checklist is selected, or none |
| Checklist.SelectedChecklist | src/pages/Checklist.tsx:62 | the checklist found has the selected id, none iff no checklist has it |
| Checklist.TotalCount | src/pages/Checklist.tsx:64 | the number of items, 0 without a selected checklist |
| Checklist.CompletedCount | src/pages/Checklist.tsx:63 | the checked items: at most the total, 0 iff none is checked, the total iff all are |
| Checklist.PendingIsUnchecked | src/pages/Checklist.tsx:235 | "Pendentes" = total − completed is the number of unchecked items |
| Checklist.Percent | src/pages/Checklist.tsx:65 | Math.round(c / t × 100), always in 0..100 |
| Checklist.Progress | src/pages/Checklist.tsx:65 | 0 without items, else Math.round(completed / total × 100), always in 0..100 |
| Checklist.CompleteIsHundred | src/pages/Checklist.tsx:65 | a non-empty checklist with every item checked is at 100 |
| Checklist.FullIsHundred | src/pages/Checklist.tsx:65 | t of t rounds to 100 |
| Checklist.ShowsBannerAsWritten | src/pages/Checklist.tsx:243 | the banner as rendered: whenever the rounded progress is 100 |
| Checklist.ShowsBanner | src/pages/Checklist.tsx:243 | the banner as intended: a non-empty checklist with every item checked |
| Checklist.NearlyCompleteShowsBanner | src/pages/Checklist.tsx:243 | with 200 items or more and one unchecked, the banner as written shows |
| Checklist.OneShortRoundsUp | src/pages/Checklist.tsx:65 | (t − 1) / t × 100 rounds to 100 once t ≥ 200 |
| Checklist.BannerIffComplete | src/pages/Checklist.tsx:243 | the intended banner shows iff the checklist is non-empty and every item is checked, and then the written banner shows too |
| Checklist.Toggled | src/pages/Checklist.tsx:73-75 | only the matching item's "checked" flips |
| Checklist.ToggleItem | src/pages/Checklist.tsx:67-80 | only the selected checklist's items change |
| Checklist.ToggledTwice | src/pages/Checklist.tsx:73-75 | flipping an item twice restores the list |
| Checklist.ToggleTwice | src/pages/Checklist.tsx:67-80 | toggling the same item twice is the identity |
| Checklist.ToggleKeepsTotal | src/pages/Checklist.tsx:67-80 | toggling never changes the total count |
| Ferramentas.FilteredTools | src/pages/Ferramentas.tsx:73-77 | a tool is listed iff its lower-cased name contains the search and the filter is "all" or its status; order and multiplicities kept |
| Ferramentas.EmptySearchListsAll | src/pages/Ferramentas.tsx:73-77 | an empty search with "all" lists the whole inventory |
| Ferramentas.FromForm | src/pages/Ferramentas.tsx:80-83 | the form's fields with the given id |
| Ferramentas.AddTool | src/pages/Ferramentas.tsx:79-87 | exactly one tool is prepended, the others are unchanged, the form resets and the dialog closes |
| Ferramentas.ClickSave | src/pages/Ferramentas.tsx:175 | disabled with an empty name; otherwise the add |
| Ferramentas.QuantityInput | src/pages/Ferramentas.tsx:159 | parseInt of the field, 0 when it does not parse |
| Ferramentas.QuantityInputReadsNumbers | src/pages/Ferramentas.tsx:159 | typing a whole number gives that quantity; an empty field gives 0 |
| Ferramentas.NeedingCount | src/pages/Ferramentas.tsx:89 | the "precisando" tools: 0 iff there are none |
| Ferramentas.MaintenanceCount | src/pages/Ferramentas.tsx:90 | the "manutencao" tools: 0 iff there are none |
| Ferramentas.AlertCountsBounded | src/pages/Ferramentas.tsx:89-90 | the two cards together never exceed the inventory |
| Ferramentas.ShowsAlerts | src/pages/Ferramentas.tsx:184-208 | the alert panel renders iff some tool is missing or in maintenance |
| Ferramentas.AddToolCounts | src/pages/Ferramentas.tsx:79-90 | adding a tool adds one to the card of its status and leaves the other card |
| Profissionais.FilteredProfessionals | src/pages/Profissionais.tsx:54-56 | listed iff the lower-cased name contains the lower-cased search; order and multiplicities kept |
| Profissionais.FromForm | src/pages/Profissionais.tsx:60-64 | the form's fields with the chosen type and the given id |
| Profissionais.AddProfessional | src/pages/Profissionais.tsx:58-67 | a no-op without a type; otherwise one professional is prepended, the others are unchanged and the form resets |
| Profissionais.ClickSave | src/pages/Profissionais.tsx:150 | disabled with an empty name or no type; otherwise the add |
| Profissionais.AddedIsListedFirst | src/pages/Profissionais.tsx:54-67 | after an add, the filtered list is the new professional (when its name matches) followed by the previous filtered list |
| Fornecedores.FilteredSuppliers | src/pages/Fornecedores.tsx:57-61 | listed iff the lower-cased search occurs in the company or the contact; order and multiplicities kept |
| Fornecedores.SearchFindsOwnName | src/pages/Fornecedores.tsx:57-61 | searching for a supplier's company or contact lists it |
| Fornecedores.FromForm | src/pages/Fornecedores.tsx:64-67 | the form's fields with the given id |
| Fornecedores.AddSupplier | src/pages/Fornecedores.tsx:63-71 | exactly one supplier is prepended, the rest are unchanged, the form resets and the dialog closes |
| Fornecedores.ClickSave | src/pages/Fornecedores.tsx:156 | disabled with an empty company; otherwise the add |
| Fornecedores.AddedIsListedFirst | src/pages/Fornecedores.tsx:57-71 | after an add, the filtered list is the new supplier (when it matches) followed by the previous filtered list |
| Text.LowerChar | src/pages/Orcamentos.tsx:118 | `toLowerCase` on one character, ASCII letters only |
| Text.Lower | src/pages/Orcamentos.tsx:118 | character-wise lower-casing, same length |
| Text.TrimStart | src/pages/Agenda.tsx:161 | drops exactly the leading whitespace and line terminators |
| Text.TrimEnd | src/pages/Agenda.tsx:161 | drops exactly the trailing whitespace and line terminators |
| Text.Trim | src/pages/Agenda.tsx:161 | `trim()`: the slice after the leading whitespace and before the trailing whitespace, with no whitespace at either end; empty iff the string is all whitespace |
| Text.Contains | src/pages/Orcamentos.tsx:118 | `includes`: true iff the needle occurs at some index |
| Text.MatchesEmpty | src/pages/Orcamentos.tsx:118 | every string includes the empty search |
| Text.NatToString | src/pages/NovoOrcamento.tsx:660 | `String(n)`: decimal digits without a leading zero |
| Text.NatToStringRoundTrip | src/pages/NovoOrcamento.tsx:660 | the decimal rendering reads back as the number |
| Text.NatToStringInjective | src/pages/NovoOrcamento.tsx:660 | distinct numbers render differently |
| Text.ParseIntPrefix | src/pages/Financeiro.tsx:106 | NaN iff the string does not start with a digit; an all-digit string reads as its decimal value |
| Text.ParseInt | src/pages/Ferramentas.tsx:159 | `parseInt`: NaN on "", leading whitespace skipped, a leading digit gives a nonnegative number |
| Text.ParseIntRoundTrip | src/pages/Ferramentas.tsx:159 | parseInt of a rendered number, with or without a minus sign, is that number |
| Numbers.NumberOr | src/pages/NovoOrcamento.tsx:372 | `parseFloat(x) \|\| fallback`: the parsed number unless it is missing or 0 |
| Numbers.Ceil | src/pages/NovoOrcamento.tsx:198 | `Math.ceil`: the least integer not below x |
| Numbers.JsRound | src/pages/Checklist.tsx:65 | `Math.round`: within half a unit, halves rounding up |
| Numbers.CeilHundredth | src/pages/NovoOrcamento.tsx:198 | `Math.ceil(x × 100) / 100`: a whole number of hundredths in [x, x + 0.01) |
| Numbers.RoundDiv | src/pages/Cronograma.tsx:162 | the rounding of an integer quotient, in integer arithmetic |
| Numbers.RoundDivBounds | src/pages/Cronograma.tsx:162 | a rounded quotient stays within the bounds of the quotient |

## Left out

- Browser storage: every `localStorage` load and save, JSON (de)serialisation and icon re-attachment. The stores are in-memory fields or values. Auth reads its user list from storage on every call; here it is a field of the store.
- Printing (`BudgetDialog.tsx`), the Supabase-backed client page and routing (`Clientes.tsx`, `App.tsx`), and the presentation-only pages and components are not part of this model.
- Floating point: money, quantities and percentages are exact reals, so `Math.ceil(0.1 * 3 * 100) / 100` is 0.30 here, not the 0.31 doubles give. `Math.round` of a double ratio can differ at exact halves.
- Dates: ISO "YYYY-MM-DD" strings, compared in lexicographic order, which is date order for well-formed dates. `new Date` parsing is modelled only in getMonthYear, where a flag says whether the local zone is west of UTC. Invalid dates other than malformed strings are not modelled.
- `Intl.NumberFormat`, `toLocaleDateString` and toasts are not modelled.
- `toLowerCase` is modelled on ASCII letters only. `localeCompare` on times is modelled as code-unit order, which agrees for "HH:MM" strings.
- `parseFloat` is a parameter of Financeiro.BuildTransaction and Financeiro.Ledger.Save. `encodeURIComponent` is a parameter of Galeria.ShareUrl. `parseInt` is modelled for decimal integer prefixes.
- Ids from `Date.now()`, "today" and the `Math.random` temporary password are method parameters.
- Servicos.ServiceEditor.constructor: the page's sample catalogue is a parameter, not the literal list.
- Financeiro.Ledger.Save: proves that the ledger ends sorted by date and holds exactly the updated transactions. It does not prove that equal dates keep their earlier relative order, as JavaScript's stable sort does.
- Agenda.UpcomingAppointments: proves sorted order and the contents. The sort is stable by construction, but no lemma states it.
- Cronograma.ConfirmDelete: returns only the new state. Closing the dialog and clearing the delete target (src/pages/Cronograma.tsx:349-350) are UI state and are not modelled.
- Financeiro.MonthFiltered: filters on the intended Financeiro.MonthKey, the ISO date's own month, not on Financeiro.MonthKeyAsWritten. West of UTC the page files each first of a month under the previous month (see Findings); the model does not.
- Financeiro.AvailableMonths: built on Financeiro.MonthKey, so it lists the intended months, not those the page shows west of UTC.
- Financeiro.MonthlySummary: its rows use Financeiro.MonthKey, so its month totals are the intended ones, not those the page shows west of UTC.
- Orcamentos.ConfirmDelete: returns only the new list. The cleared pending budget and the closed dialog are UI state and are not modelled.
- NovoOrcamento.BudgetBuilder.UpdatePaymentPercentage, UpdatePaymentDescription, UpdateScheduleTask and UpdateScheduleWeek require an index inside the list. The page only calls them with such an index; in JavaScript an outside index would throw.
- Servicos.ServiceEditor.UpdateMaterial: requires an index inside the list being edited. The page only calls it with an index taken from its own `materials.map`. With an outside index JavaScript does not throw here, because spreading `undefined` is allowed: the copy gains a slot at that index holding a one-field object, and any slots in between stay empty. The model does not capture that case.
- Login, register and reset results are modelled apart from the React state machinery; `isLoading` is not modelled.
- Galeria's image upload (file-size check and `FileReader`) is not part of this model.

Where the page's documentation and its code differ, the model follows the code:

- `updateItemQuantity` looks the catalogue entry up by name.
- Agenda's delete treats an empty target id as no target.

## Findings

| source | as written | input that shows it | evidently intended | confidence | as-written member | corrected member |
|---|---|---|---|---|---|---|
| src/pages/Financeiro.tsx:95-98 | `new Date("YYYY-MM-DD")` parses as UTC midnight, but `getMonth()` reads the local month | "2024-03-01" in a zone west of UTC (Brazil, UTC−3) is filed under "2024-02"; the same code is at src/pages/Relatorios.tsx:58-61 | the month of the ISO date itself, "2024-03" | not executed | Financeiro.MonthKeyAsWritten (Financeiro.FirstOfMonthMisfiled, Financeiro.FirstOfMarchExample) | Financeiro.MonthKey (Financeiro.FormatMonthKey, Financeiro.MonthlySummaryCoversLedger) |
| src/pages/Checklist.tsx:243 | the completion banner shows when `progress === 100`, and progress is rounded | a checklist of 400 items with 399 checked: 99.75 rounds to 100 and the banner announces a complete checklist | show the banner only when every item is checked | not executed | Checklist.ShowsBannerAsWritten (Checklist.NearlyCompleteShowsBanner) | Checklist.ShowsBanner (Checklist.BannerIffComplete) |
