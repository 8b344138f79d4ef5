# Lead pipeline board, modelled in Dafny

This project models the state logic of the lead-pipeline kanban board
(`KanbanBoard`): sales leads pass through five stages (new, contacted,
negotiating, won, lost). The board holds an ordered collection of leads and
shows one column per stage, each column listing the leads of that stage. A
card dragged onto another column takes that column's stage.

The model is functional. The collection is a `seq<Lead>`. The render-time
partition is a pure filter, with loop methods that compute the five columns the
way the board does. A drop is a pure map over the collection. The drag payload
is a small key/value store that carries the lead id from the card that is picked
up to the column that receives it.

Files:
- `leads.dfy` (module `Leads`): the status enumeration, the `Lead` record, id helpers and the seed collection.
- `columns.dfy` (module `Columns`): the fixed column list and the column of each stage.
- `partition.dfy` (module `Partition`): the per-column filter, its order, completeness and exactly-once lemmas, and the render loops.
- `status_change.dfy` (module `StatusChange`): the drop transition and its frame, no-op and idempotence lemmas.
- `board.dfy` (module `Board`): the drag payload handshake and what a drop does to the rendered columns.

`Drop` relabels every lead whose id equals the payload, as `prevLeads.map` does
(`KanbanBoard.tsx:60-64`). `DroppedCardMovesToColumn` therefore requires unique
ids. The seed has them (`InitialLeads`) and every drop keeps them
(`DropPreservesIds`). `Relabel` (one lead's update, `KanbanBoard.tsx:62`) and
`ColumnLeads` (the `k`-th column) are helpers without rows of their own.

## Model

| member | source | states |
|---|---|---|
| Leads.InitialLeads | src/components/kanban/KanbanBoard.tsx:19-39 | the seed holds two leads with distinct ids "1" and "2"; lead "1" is new and unassigned; lead "2" is contacted and assigned to Alice Cooper |
| Columns.BoardColumns | src/components/kanban/KanbanBoard.tsx:41-47 | there are exactly five columns, and no two columns collect the same stage |
| Columns.ColumnIndex | src/components/kanban/KanbanBoard.tsx:41-47 | every stage has a column, and that column is the only one with that stage |
| Columns.ColumnOrder | src/components/kanban/KanbanBoard.tsx:41-47 | the columns run new, contacted, negotiating, won, lost, from left to right |
| Partition.Filter | src/components/kanban/KanbanBoard.tsx:86 | a column holds only leads of its stage, and a lead is in the column exactly when it is in the collection and has that stage; the column is never longer than the collection |
| Partition.FilterConcat | src/components/kanban/KanbanBoard.tsx:86 | filtering a concatenation gives the concatenation of the filtered parts, so leads keep their relative order |
| Partition.FilterIsSubsequence | src/components/kanban/KanbanBoard.tsx:86 | a column's leads are a subsequence of the collection: same leads, same relative order |
| Partition.FilterMultiplicity | src/components/kanban/KanbanBoard.tsx:86 | a column holds every copy of a lead of its stage and no copy of any lead of another stage |
| Partition.ExactlyOneColumn | src/components/kanban/KanbanBoard.tsx:82-86 | a lead of the collection is shown in a column if and only if it is the column of its own status, and there with its full multiplicity |
| Partition.ColumnsLength | src/components/kanban/KanbanBoard.tsx:82-86 | the summed lengths of the first columns equal the size of their combined multiset of leads |
| Partition.ColumnsUnionMultiplicity | src/components/kanban/KanbanBoard.tsx:82-86 | the first `n` board columns together hold every copy of each lead whose status column is among them, and no copy of any other lead |
| Partition.PartitionComplete | src/components/kanban/KanbanBoard.tsx:82-86 | all the board's columns together equal the collection as a multiset: no lead is lost or duplicated |
| Partition.PartitionLengths | src/components/kanban/KanbanBoard.tsx:82-86 | the lengths of all the board's columns add up to the length of the collection |
| Partition.FilterByStatus | src/components/kanban/KanbanBoard.tsx:86 | the loop that builds one column yields exactly the filtered leads, in collection order |
| Partition.RenderColumns | src/components/kanban/KanbanBoard.tsx:82-86 | the render yields one column per column definition, in board order, each holding the leads of that column's stage |
| StatusChange.Drop | src/components/kanban/KanbanBoard.tsx:60-64 | a drop keeps the length and the id at every position; every lead with the dropped id gets the target stage and keeps all its other fields; every other lead stays exactly as it was |
| StatusChange.DropPreservesIds | src/components/kanban/KanbanBoard.tsx:60-64 | the id sequence after a drop equals the one before, so unique ids stay unique |
| StatusChange.DropUnknownId | src/components/kanban/KanbanBoard.tsx:60-64 | dropping an id that no lead carries leaves the collection equal to before |
| StatusChange.DropOntoCurrentColumn | src/components/kanban/KanbanBoard.tsx:60-64 | dropping a card onto the column it is already in leaves the collection equal to before |
| StatusChange.DropIdempotent | src/components/kanban/KanbanBoard.tsx:60-64 | applying the same drop twice gives the same collection as applying it once |
| StatusChange.DropsOfDistinctIdsCommute | src/components/kanban/KanbanBoard.tsx:60-64 | two drops of different ids give the same collection in either order |
| Board.SetData | src/components/kanban/KanbanBoard.tsx:53 | writing the payload stores the value under its key and keeps every other key |
| Board.PayloadRoundTrip | src/components/kanban/KanbanBoard.tsx:53-58 | reading a key returns the value last written under it, and writing one key leaves what every other key reads unchanged |
| Board.DragStart | src/components/kanban/LeadCard.tsx:14 | after a card is picked up, the payload under "leadId" is that card's lead id |
| Board.HandleDrop | src/components/kanban/KanbanBoard.tsx:56-65 | a drop keeps the id sequence; a release with no "leadId" payload (text or a file dragged in from outside) leaves the collection unchanged when no lead has the empty id |
| Board.DragThenDrop | src/components/kanban/KanbanBoard.tsx:52-62 | releasing a picked-up card over a column drops exactly that card's id onto the column's stage |
| Board.DroppedCardMovesToColumn | src/components/kanban/KanbanBoard.tsx:56-88 | after a card is dragged onto a column, it appears in that column with its other fields unchanged, it appears in no other column, and every other lead stays as it was |
| Board.SeedMoveExample | src/components/kanban/KanbanBoard.tsx:19-64 | on the seed, moving lead "2" to negotiating empties the contacted column, shows lead "2" alone in the negotiating column, and leaves lead "1" unchanged |

## Left out

- Rendering (the JSX of `KanbanBoard`, `KanbanColumn` and `LeadCard`): presentation only. `KanbanColumn` forwards callbacks, and `LeadCard` displays fields.
- `preventDefault` in the drop and drag-over handlers: the drag-over call is what makes every column a drop target. The model assumes that every release over a column reaches `HandleDrop`.
- The browser's drag payload store is reduced to a map from key to string. It does not model the browser's normalisation of format keys, because the same key is used on both sides. The empty-string result for a key never written is the browser's rule, not code of this repository.
- React state (`useState`, `setLeads`): the collection is a plain value, and a drop is a function from the old collection to the new one.
- Timestamps: `createdAt` is an opaque string. The seed takes its two clock readings as parameters. The locale date display on the card is not modelled.
- The sidebar (`AppSidebar.tsx`) and the page shell (`src/pages/Index.tsx`): static navigation and layout with no lead logic.
- Adding a lead and its field validation: the "Add Lead" button (`KanbanBoard.tsx:75-78`) has no handler, and no such code exists.
