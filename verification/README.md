# Team-member dashboard: page labels and member store

This project models the two pieces of logic in an Angular admin dashboard
that are more than presentation:

- **Page labels of the team-member table** (`DataTableComponent`). The
  component turns the page count and the current page into a short list of
  page numbers and `...` markers for the page controls. It decides which
  label is highlighted and moves to the page a clicked label names. A
  label is the datatype `Label = Num(n) | Ellipsis`. The page count comes
  from the table library, so it is an input. The pagination state
  (`pageIndex`, `pageSize`) is a field of the class `DataTableComponent`.
  `PageLabels` is the function that specifies the labels. The method
  `GetPageNumbers` builds them with pushes and loops, as the component does,
  and is proved equal to `PageLabels`. The lemmas prove what the labels
  promise about `PageLabels`.
- **Team-member store** (`TeamMemberService`). This is an ordered list of
  `TeamMember` records with append, merge-by-id, filter-by-id and
  find-first-by-id. After every change the list is written to a
  browser-storage slot. The class `MemberService.TeamMemberService` holds
  the list (`members`) and the slot (`storage`). `Valid()` says that the
  slot holds exactly the in-memory list. The pure list transformations are
  `UpdateById` (the `map` with an object spread), `RemoveById` (the
  `filter`) and `FindById` (the `find`). A partial record
  (`Partial<TeamMember>`) is `MemberPatch`: one `Option` per field, where
  `None` means the key is missing.

Modules: `Wrappers` (`Option`), `TeamMemberModel` (the record, the partial
record, the spread `Merge`), `MemberService` (seed data, the list functions,
their lemmas, the service class) and `DataTable` (labels, pagination state,
the component class, the label lemmas).

What the store does not do:
- `addMember` generates no id and derives no avatar. It appends the record
  it is given (`team-member.service.ts:17-22`).
- Nothing enforces unique ids. `AddMayDuplicateId` shows that an append can
  break uniqueness. `UpdateKeepsDistinctIds` shows that an update keeps it
  when the partial record carries no `id`.

The initial page size is 5 (`data-table.ts:170-173`). That size is not one
of the sizes offered (`[3, 10, 20, 50]`). The model keeps it that way.

## Model

| member | source | states |
|---|---|---|
| `TeamMemberModel.Merge` | src/app/shared/service/team-member.service.ts:27 | The spread `{ ...m, ...p }`: an empty partial record gives back the member; the id changes only when the partial record carries one, and then to that value |
| `TeamMemberModel.MergeIdempotent` | src/app/shared/service/team-member.service.ts:27 | Spreading the same partial record twice equals spreading it once |
| `TeamMemberModel.MergeRoleOnly` | src/app/shared/service/team-member.service.ts:27 | Merging `{ role }` changes the role and keeps every other field |
| `MemberService.Seed` | src/app/shared/service/team-member.service.ts:56-157 | The seed has ten members with ids "1" to "10" in order |
| `MemberService.SeedIdsDistinct` | src/app/shared/service/team-member.service.ts:56-157 | The seed's ids are pairwise distinct |
| `MemberService.LoadFromStorage` | src/app/shared/service/team-member.service.ts:49-52 | A stored list (even an empty one) is loaded as is; a missing or blank slot gives the seed, ten members with distinct ids |
| `MemberService.UpdateById` | src/app/shared/service/team-member.service.ts:27 | The mapped list has the same length as the input |
| `MemberService.UpdateByIdPointwise` | src/app/shared/service/team-member.service.ts:25-31 | Position by position, a member with the id becomes that member merged with the patch; every other member is left identical; length and order are kept |
| `MemberService.UpdateAbsentIsNoOp` | src/app/shared/service/team-member.service.ts:27 | Updating an id no member carries returns the list unchanged (no error) |
| `MemberService.UpdateIdempotent` | src/app/shared/service/team-member.service.ts:27 | Applying the same update twice equals applying it once |
| `MemberService.UpdateKeepsDistinctIds` | src/app/shared/service/team-member.service.ts:27 | An update whose patch carries no id keeps ids distinct |
| `MemberService.RemoveById` | src/app/shared/service/team-member.service.ts:35 | The filtered list is no longer than the input, and every member in it comes from the input and has a different id |
| `MemberService.RemoveByIdKeepsOthers` | src/app/shared/service/team-member.service.ts:35 | Every member whose id differs survives the filter |
| `MemberService.RemoveByIdConcat` | src/app/shared/service/team-member.service.ts:35 | Filtering distributes over concatenation, so the survivors keep their original order |
| `MemberService.RemoveAbsentIsNoOp` | src/app/shared/service/team-member.service.ts:33-39 | Deleting an id no member carries leaves the list unchanged |
| `MemberService.RemoveIdempotent` | src/app/shared/service/team-member.service.ts:33-39 | Deleting the same id twice equals deleting it once |
| `MemberService.FindById` | src/app/shared/service/team-member.service.ts:41-43 | The lookup finds nothing exactly when no member has the id; otherwise it returns a member with that id, and no earlier member has it |
| `MemberService.FindAfterRemove` | src/app/shared/service/team-member.service.ts:33-43 | After a delete of an id, looking that id up finds nothing |
| `MemberService.AddMayDuplicateId` | src/app/shared/service/team-member.service.ts:17-22 | Appending a member whose id is already present leaves two members with that id; the append does not check ids |
| `MemberService.TeamMemberService.constructor` | src/app/shared/service/team-member.service.ts:11-15 | After construction the list is the stored list, or the seed when the slot is missing or blank, and the slot holds that list |
| `MemberService.TeamMemberService.SaveToStorage` | src/app/shared/service/team-member.service.ts:45-47 | The slot afterwards holds the given list |
| `MemberService.TeamMemberService.AddMember` | src/app/shared/service/team-member.service.ts:17-22 | The new list is the old list plus the member at the end: one longer, with the earlier members unchanged and in order; the slot mirrors it |
| `MemberService.TeamMemberService.UpdateMember` | src/app/shared/service/team-member.service.ts:25-31 | Same length; each member with the id is merged with the patch and every other member is identical; nothing changes for an absent id; the slot mirrors it |
| `MemberService.TeamMemberService.DeleteMember` | src/app/shared/service/team-member.service.ts:33-39 | The new list is the filter of the old one: no member with the id remains, every other member remains, nothing changes for an absent id; the slot mirrors it |
| `MemberService.TeamMemberService.GetMemberById` | src/app/shared/service/team-member.service.ts:41-43 | Returns none exactly when no member has the id, otherwise the first member with it |
| `DataTable.PageRange` | src/app/features/dashboard/data-table/data-table.ts:215-217 | The labels for pages lo to hi: hi - lo + 1 of them (none when hi < lo), the i-th being page lo + i |
| `DataTable.PushPages` | src/app/features/dashboard/data-table/data-table.ts:228-232 | The push loop appends exactly the labels of pages start to end to what was there |
| `DataTable.DataTableComponent.GetPageNumbers` | src/app/features/dashboard/data-table/data-table.ts:208-243 | The pushed labels equal `PageLabels(pageCount, pageIndex + 1)`; their numbers are strictly increasing and in [1, pageCount]; there are at most seven |
| `DataTable.FewPagesShowAll` | src/app/features/dashboard/data-table/data-table.ts:214-217 | With at most seven pages the labels are exactly 1, 2, ..., pageCount, and there are none when pageCount <= 0 |
| `DataTable.ManyPagesFirstAndLast` | src/app/features/dashboard/data-table/data-table.ts:218-240 | With more than seven pages the first label is page 1 and the last is page pageCount |
| `DataTable.LabelsWellFormed` | src/app/features/dashboard/data-table/data-table.ts:208-243 | For any inputs, the page numbers are strictly increasing and lie in [1, pageCount], and there are at most seven labels |
| `DataTable.EllipsisPlacement` | src/app/features/dashboard/data-table/data-table.ts:222-237 | With more than seven pages and 1 <= currentPage <= pageCount: a marker follows page 1 exactly when currentPage > 3, and a marker precedes the last page exactly when currentPage < pageCount - 2 |
| `DataTable.VisiblePages` | src/app/features/dashboard/data-table/data-table.ts:218-240 | With more than seven pages, page k is shown exactly when it is the first, the last, or within one of the current page; so the middle numbers are [max(2, c-1) .. min(pageCount-1, c+1)] |
| `DataTable.TenPageTraces` | src/app/features/dashboard/data-table/data-table.ts:208-243 | For ten pages: page 1 gives [1, 2, Ellipsis, 10], page 6 gives [1, Ellipsis, 5, 6, 7, Ellipsis, 10], page 10 gives [1, Ellipsis, 9, 10] |
| `DataTable.DataTableComponent.constructor` | src/app/features/dashboard/data-table/data-table.ts:170-173 | Starts at page index 0 with page size 5, which is not one of the offered sizes |
| `DataTable.DataTableComponent.IsActivePage` | src/app/features/dashboard/data-table/data-table.ts:245-248 | A label is active exactly when it is the number of the current page (pageIndex + 1); a marker never is |
| `DataTable.ExactlyOneActivePage` | src/app/features/dashboard/data-table/data-table.ts:245-248 | When 0 <= pageIndex < pageCount, exactly one of the generated labels is active |
| `DataTable.DataTableComponent.OnPaginationChange` | src/app/features/dashboard/data-table/data-table.ts:190-192 | A value replaces the pagination state; a function is applied to the old state |
| `DataTable.DataTableComponent.GoToPage` | src/app/features/dashboard/data-table/data-table.ts:250-254 | A page label sets pageIndex to its number minus one, keeps the page size, and makes that label active; a marker leaves the state unchanged |
| `DataTable.LabelTargetsInRange` | src/app/features/dashboard/data-table/data-table.ts:250-254 | Every numbered label leads to a page index in [0, pageCount) |

## Left out

- Browser storage is the field `storage`. Each value read at start-up is one of `Absent`, `Blank` (the empty string) or `Saved(list)`. JSON encoding and decoding are not modelled. Slot text that does not parse makes `JSON.parse` throw while the list is first loaded. Text that parses to `null`, an object or a number is taken as the list unchecked and written back (`team-member.service.ts:14`). The next `addMember`, `updateMember`, `deleteMember` or `getMemberById` then throws (`:19`, `:27`, `:35`, `:42`). A stored array is taken as is. If an element is `null`, `updateMember` and `deleteMember` throw at the `m.id` test (`:27`, `:35`), and so does `getMemberById` when it reaches that element (`:42`). Other non-member elements raise no error. All such slot contents are outside the model. A storage write that fails (for example, quota exceeded) throws, and that is not modelled either.
- A partial record whose key is present but holds `undefined` would overwrite that field with `undefined` in the spread. `MemberPatch` cannot express this: `None` always means the key is missing.
- `extraTeams` is a JavaScript number. It is modelled as an unbounded integer, and fractional values are not represented.
- The table library is not modelled: page count, sorting, the row models and `setPageIndex`. `GoToPage` passes its new index through `OnPaginationChange` as an update function. Any clamping the library applies to that index is not modelled. For every label that `GetPageNumbers` produces, the index is already in range (`LabelTargetsInRange`).
- EllipsisPlacement: requires 1 <= currentPage <= pageCount. For a current page outside that range the code still emits markers (for example `[1, Ellipsis, pageCount]`), and the "exactly when" statements would not hold. `VisiblePages` and `LabelsWellFormed` hold for every current page.
- The unused `_pagination` signal (`data-table.ts:161-164`) has no effect and is not modelled.
- The component's `deleteMember`, `addMember` and `editMember` (`data-table.ts:195-206`) only forward to the store or to the modal. The add-member form forwards its raw value to `addMember`, and its `openSheet` is empty. That value holds only `name`, `email` and `role` (`add-member.ts:37-41`, `:46`), so the record appended in the running app has no `id`, `avatar`, `status`, `teams` or `extraTeams`. Such partial records cannot be expressed in the model, where every `TeamMember` has every field.
- Angular signals, change detection, dependency injection and console logging are not modelled.
- Cell renderers (HTML templates), the table styling directives and the chart and route configuration are presentation or configuration only.
