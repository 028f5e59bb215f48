# Sarl-Malao ERP backend — a verified model of its business core

Sarl-Malao is an ERP backend for a building-materials producer. This project
models its business rules in Dafny and proves properties of them:

- role-based access control (the permission evaluator, the permission catalog, the role table and its seeding, and the request gates in front of the routes);
- the approval workflow (submission, step approval, rejection, the status written back to the approved entity) and the HTTP checks of its controller;
- the organisational entity hierarchy (children, trees, partial updates, guarded deletion);
- the stock ledger (entries, exits, physical counts, low-stock alerts);
- quotes, orders and deliveries, with the quote → order → shipped → delivered status chain;
- the production cost, margin and breakdown arithmetic;
- the IoT threshold and automation-rule checks run on each sensor reading.

Database tables become fields of classes (`RoleStore`, `WorkflowStore`,
`EntityStore`, `StockLedger`, `SalesStore`, `DeliveryStore`, `IotStore`) whose
methods change them in place. Most tables never delete rows, so a row's id is
its position. Entities do get deleted, so they carry string ids. Where an
operation is a rule rather than a loop, it is a pure function, and the
methods are proved against those functions. For example, `WorkflowStore.ApproveStep`
leaves the tables exactly as `Workflow.Approve` says, and the lemmas about
`Approve` state what approving does.

Some JavaScript value conventions show through:

- `||` tests for truthiness; this is `Common.Truthy`.
- An argument that is left out (`undefined`), sent as `null`, or given behaves differently in `COALESCE` and default parameters; this is `Common.Arg`.
- `ORDER BY` is a permutation of the selected rows whose adjacent rows are in order; this is `Common.SortBy`. Strings compare by character code.

Money, weights and quantities are exact reals.

Modules, one per source file: `Common`, `Rbac` (rbacService.ts), `RbacGate`
(middleware/rbac.ts), `Workflow` (workflowService.ts), `WorkflowApi`
(workflowController.ts), `Entities` (entityService.ts), `Inventory`
(inventoryController.ts), `Sales` (salesController.ts), `Delivery`
(deliveryController.ts), `Costs` (costsController.ts) and `Iot` (iotService.ts).

Behaviour of the code that the model keeps as written, and proves:

- An approval is accepted for any step id in the workflow, in any order, and whatever the validation's status. A rejected validation can therefore still be approved (`Workflow.ApprovalAfterRejection`).
- A stock exit is checked against the sum of the entries only; earlier exits are not subtracted (`Inventory.ExitsAreNotSubtracted`).
- The IoT severity of a reading below a threshold's minimum is measured from the maximum (`Iot.LowReadingMeasuredFromMaximum`).
- The cost evolution leaves maintenance and other costs out of its cost per ton, and the cost breakdown leaves other costs out of its total (`Costs.EvolutionOmitsMaintenanceAndOther`, `Costs.BreakdownLeavesOutOtherCosts`).

## Model

| member | source | states |
|---|---|---|
| Common.StrLeTotal | backend/src/services/rbacService.ts:148 | character-code ordering of strings, used for every `ORDER BY name`, is a total preorder |
| Common.SortBy | backend/src/services/rbacService.ts:148 | an `ORDER BY` result is a permutation of its input |
| Common.SortBySorted | backend/src/services/rbacService.ts:148 | under a total order an `ORDER BY` result is sorted |
| Rbac.HasPermission | backend/src/services/rbacService.ts:18-65 | a grant needs a reachable database and an existing active user; its lemmas below decide the rest |
| Rbac.GetUserPermissions | backend/src/services/rbacService.ts:68-100 | only an existing active user over a reachable database is listed anything |
| Rbac.AllPermissions | backend/src/services/rbacService.ts:158-203 | the catalog has 25 entries, each with at least one action |
| Rbac.DefaultRoles | backend/src/services/rbacService.ts:207-268 | six templates with distinct names, `super_admin` and `admin` first |
| Rbac.SeedFrom | backend/src/services/rbacService.ts:270-277 | seeding keeps every row and adds at most one row per template |
| Rbac.ActiveRole | backend/src/services/rbacService.ts:25-33 | a role is found iff the user exists and is active, and it is that user's role |
| Rbac.FindRole | backend/src/services/rbacService.ts:42-49 | the role lookup by name finds the first row with that name, or reports that none has it |
| Rbac.Grants | backend/src/services/rbacService.ts:51-58 | the `.some` check holds iff some entry names the resource and lists the action or `*` |
| Rbac.FailClosed | backend/src/services/rbacService.ts:25-32 | a missing or inactive user, or a failing query, is denied every resource and action |
| Rbac.SuperRoleBypass | backend/src/services/rbacService.ts:37-39 | an active `admin` or `super_admin` is granted everything, with or without a role row |
| Rbac.UnknownRoleDenied | backend/src/services/rbacService.ts:42-49 | a non-super user whose role has no row is denied everything |
| Rbac.GrantedIffMatchingEntry | backend/src/services/rbacService.ts:51-58 | an ordinary user is granted iff a stored entry names the resource and lists the action or `*` |
| Rbac.WildcardGrantsEveryAction | backend/src/services/rbacService.ts:51-58 | an entry of the resource that lists `*` among its actions, alone or with others, grants every action on it |
| Rbac.GrantNeedsEntryForResource | backend/src/services/rbacService.ts:51-58 | an ordinary user granted something holds an entry for that very resource, so `*` never reaches other resources |
| Rbac.CatalogResourcesDistinct | backend/src/services/rbacService.ts:158-203 | the permission catalog has 25 entries and no resource appears twice |
| Rbac.ListedPermissionsDecide | backend/src/services/rbacService.ts:68-100 | for an active ordinary user, the listed permissions grant exactly what the evaluator grants |
| Rbac.SuperRoleListIsCatalog | backend/src/services/rbacService.ts:81-84 | a super-role user is listed the catalog, which lacks `production:export`, although the evaluator grants it |
| Rbac.NoListForInactive | backend/src/services/rbacService.ts:75-77 | a missing or inactive user is listed no permission |
| Rbac.WildcardedKeepsDistinct | backend/src/services/rbacService.ts:211-214 | replacing actions by `*` keeps resources distinct |
| Rbac.SuperTemplatesWildcardCatalog | backend/src/services/rbacService.ts:207-222 | the first two templates are `super_admin` and `admin`, each the wildcarded catalog |
| Rbac.SeedKeepsExisting | backend/src/services/rbacService.ts:271-277 | seeding never changes or removes an existing role row, edited or not |
| Rbac.SeedCovers | backend/src/services/rbacService.ts:271-277 | after seeding every template name has a role |
| Rbac.SeedNoOpWhenPresent | backend/src/services/rbacService.ts:271-277 | when every template name exists already, seeding changes nothing |
| Rbac.SeedIdempotent | backend/src/services/rbacService.ts:206-278 | seeding twice gives the table seeding once gives |
| Rbac.SeedKeepsNamesUnique | backend/src/services/rbacService.ts:271-277 | seeding never adds a second row for a name |
| Rbac.RoleViews | backend/src/services/rbacService.ts:149-154 | each returned role copies its row, and a null permission list is read as empty |
| Rbac.RoleStore.constructor | backend/src/services/rbacService.ts:103-121 | an empty roles table |
| Rbac.RoleStore.CreateRole | backend/src/services/rbacService.ts:103-121 | appends exactly one row with the given fields and returns it; the name is not checked for clashes |
| Rbac.RoleStore.UpdateRole | backend/src/services/rbacService.ts:124-144 | replaces name, description and permissions of the one row with that id; with no such row nothing changes and the call fails |
| Rbac.RoleStore.GetAllRoles | backend/src/services/rbacService.ts:147-155 | every role exactly once, sorted by name |
| Rbac.RoleStore.InitializeDefaultRoles | backend/src/services/rbacService.ts:206-278 | the table becomes the seeding of the six templates into the old table |
| Rbac.RoleStore.SeedTemplates | backend/src/services/rbacService.ts:271-277 | the loop creates, in order, each template whose name has no row yet |
| Rbac.SeedTwice | backend/src/services/rbacService.ts:206-278 | a second initialisation leaves the table as the first left it |
| RbacGate.RequirePermission | backend/src/middleware/rbac.ts:7-34 | no user gives 401; otherwise the request passes iff the evaluator grants the pair, else 403 naming it |
| RbacGate.FirstGranted | backend/src/middleware/rbac.ts:46-55 | the loop stops at the first granted pair, every earlier pair having been refused |
| RbacGate.RequireAnyPermission | backend/src/middleware/rbac.ts:37-64 | no user gives 401; otherwise the request passes iff some listed pair is granted, else 403 |
| RbacGate.NoUserNoLookup | backend/src/middleware/rbac.ts:10-12 | the 401 answer does not depend on the directory |
| RbacGate.EmptyListDenies | backend/src/middleware/rbac.ts:46-59 | an empty list denies every user, admins included |
| RbacGate.GateFollowsRoles | backend/src/middleware/rbac.ts:14-27 | an active admin passes every gate and an inactive user gets 403 |
| RbacGate.AnyOfOneIsSingle | backend/src/middleware/rbac.ts:37-64 | a one-pair list decides as the single-pair gate |
| Workflow.WorkflowForEntity | backend/src/services/workflowService.ts:45-65 | no workflow iff none of the type is active; otherwise an active one of the type |
| Workflow.Submit | backend/src/services/workflowService.ts:68-101 | only validations change; an auto-approval writes nothing, a submission appends one pending validation whose id it returns |
| Workflow.WriteStatus | backend/src/services/workflowService.ts:208-232 | fails iff the type has no status table; otherwise only that entity's status changes, and only when its row exists |
| Workflow.Approve | backend/src/services/workflowService.ts:104-176 | the workflows and the number of validations never change; every failure but the late status write leaves the tables as they were; a found step appends exactly its audit row |
| Workflow.Reject | backend/src/services/workflowService.ts:179-205 | workflows and audit rows never change; on a failure the entity statuses are unchanged |
| Workflow.LatestActive | backend/src/services/workflowService.ts:45-65 | the selected workflow is active, of the type, and newer than every other such workflow; none is selected only when none qualifies |
| Workflow.StepIndex | backend/src/services/workflowService.ts:129-134 | `findIndex` returns the first step with that id, or none when no step has it |
| Workflow.StatusTableMapsThreeTypes | backend/src/services/workflowService.ts:214-226 | only production orders, quotes and quality controls have a status table |
| Workflow.NewestActiveWins | backend/src/services/workflowService.ts:45-65 | the newest active workflow of the type is returned, a null step list read as empty |
| Workflow.SubmitBypass | backend/src/services/workflowService.ts:73-78 | with no workflow, or one without steps, submission is approved at once and writes nothing |
| Workflow.SubmitCreatesOnePending | backend/src/services/workflowService.ts:81-100 | otherwise exactly one pending validation is added, at the first step, and its id returned |
| Workflow.ApproveFailsCleanly | backend/src/services/workflowService.ts:115-134 | an unknown validation, workflow or step, or a null step list, fails with no write |
| Workflow.ApproveAuditsAnyListedStep | backend/src/services/workflowService.ts:137-142 | any listed step id is accepted and appends exactly one approval row |
| Workflow.ApproveAdvances | backend/src/services/workflowService.ts:145-157 | approving a step that is not the last sets the next step as current and keeps the status |
| Workflow.ApproveLastCompletes | backend/src/services/workflowService.ts:158-175 | approving the last step approves the validation and writes `approved` to the entity's status |
| Workflow.RejectFromAnyPosition | backend/src/services/workflowService.ts:179-205 | rejection is immediate at any step, stores the reason and writes `rejected` to the entity; an unmapped type fails with the statuses unchanged |
| Workflow.RejectUnknownValidation | backend/src/services/workflowService.ts:185-203 | rejecting an unknown validation fails on the missing row and writes nothing |
| Workflow.ApprovalAfterRejection | backend/src/services/workflowService.ts:104-176 | approval does not check the status: a rejected validation becomes approved |
| Workflow.ApproveStepAt | backend/src/services/workflowService.ts:137-175 | approving the step at one position audits it and keeps the workflow, so the steps after it can be approved next |
| Workflow.ApprovingInOrderCompletes | backend/src/services/workflowService.ts:104-176 | approving every step in order approves the validation and leaves one audit row per step |
| Workflow.IdlessStepsNeverApprove | backend/src/services/workflowService.ts:129-134 | steps without ids (as createWorkflow's type allows) can never be approved |
| Workflow.WorkflowStore.constructor | backend/src/services/workflowService.ts:23-42 | empty workflow tables over the given entity statuses |
| Workflow.WorkflowStore.CreateWorkflow | backend/src/services/workflowService.ts:23-42 | appends one active workflow with the steps unchecked and returns it |
| Workflow.WorkflowStore.SubmitForApproval | backend/src/services/workflowService.ts:68-101 | the tables and the answer are those of the submission rule |
| Workflow.WorkflowStore.ApproveStep | backend/src/services/workflowService.ts:104-176 | the tables and the answer are those of the approval rule, including writes kept before a late failure |
| Workflow.WorkflowStore.RejectStep | backend/src/services/workflowService.ts:179-205 | the tables and the answer are those of the rejection rule |
| Workflow.WorkflowStore.UpdateEntityStatus | backend/src/services/workflowService.ts:208-232 | an unmapped type fails; otherwise only an existing entity's status changes |
| Workflow.QuoteApprovalScenario | backend/src/services/workflowService.ts:68-176 | a two-step quote workflow approved step by step ends `approved`, with two audit rows |
| Workflow.QuoteRejectionScenario | backend/src/services/workflowService.ts:179-205 | a quote rejected at its first step ends `rejected`, with the reason stored |
| WorkflowApi.ServerError | backend/src/controllers/workflowController.ts:120-122 | a service failure is answered 500 with its message |
| WorkflowApi.CreateWorkflowCheck | backend/src/controllers/workflowController.ts:11-18 | 400 iff name, entity type or steps are missing; an empty step list passes |
| WorkflowApi.SubmitCheck | backend/src/controllers/workflowController.ts:67-78 | missing ids give 400 before a missing user gives 401; the request proceeds iff neither applies |
| WorkflowApi.RejectCheck | backend/src/controllers/workflowController.ts:134-145 | a missing reason gives 400 before a missing user gives 401; the request proceeds iff neither applies |
| WorkflowApi.MissingIdsBeforeAuthentication | backend/src/controllers/workflowController.ts:67-78 | a request without ids is answered 400 even when unauthenticated |
| WorkflowApi.CreateWorkflow | backend/src/controllers/workflowController.ts:6-30 | a refused request writes nothing; otherwise one workflow is created and answered 201 |
| WorkflowApi.GetWorkflow | backend/src/controllers/workflowController.ts:33-57 | 404 iff no active workflow exists for the type, otherwise 200 with it |
| WorkflowApi.SubmitForApproval | backend/src/controllers/workflowController.ts:60-93 | a refused request writes nothing; otherwise the submission is performed and answered 200 |
| WorkflowApi.ApproveStep | backend/src/controllers/workflowController.ts:96-123 | no user gives 401 and no write; otherwise the approval is performed and answered 200 or 500 |
| WorkflowApi.RejectStep | backend/src/controllers/workflowController.ts:126-156 | a refused request writes nothing; otherwise the rejection is performed and answered 200 or 500 |
| WorkflowApi.FailedAnswerAfterWrites | backend/src/controllers/workflowController.ts:96-123 | approving the last step of an unsupported entity type answers 500 although the audit row and the approval were written |
| Entities.OrNull | backend/src/services/entityService.ts:29 | `value \|\| null` is null iff the value is not truthy, and the value otherwise |
| Entities.IndexOf | backend/src/services/entityService.ts:37-44 | the lookup by id finds that row, or reports that no row has the id |
| Entities.ChildRows | backend/src/services/entityService.ts:61-68 | exactly the rows whose parent is the given entity |
| Entities.ChildrenExactly | backend/src/services/entityService.ts:61-68 | getChildren returns exactly the children, each once, sorted by name |
| Entities.Expand | backend/src/services/entityService.ts:81-100 | each node carries its own entity, and its children are loaded iff levels remain |
| Entities.ExpandOneLevel | backend/src/services/entityService.ts:36-58 | one level down, an entity carries its children, whose own children are not loaded |
| Entities.ExpandTwoLevels | backend/src/services/entityService.ts:88-91 | two levels down, each child carries its own children, unloaded |
| Entities.ExpandThreeLevels | backend/src/services/entityService.ts:88-97 | three levels down, each child carries its children, each with their own children attached |
| Entities.LoadGrandchildren | backend/src/services/entityService.ts:92-94 | the inner loop attaches to each grandchild exactly the children the lookup gives it |
| Entities.LoadChildren | backend/src/services/entityService.ts:88-97 | the outer loop replaces each child by itself two levels down |
| Entities.ExpandLoadsExactly | backend/src/services/entityService.ts:81-100 | the tree is loaded exactly to the given depth, and each node's children name it as parent |
| Entities.RowsOfType | backend/src/services/entityService.ts:71-78 | exactly the rows of the given type |
| Entities.Updated | backend/src/services/entityService.ts:103-153 | the id never changes, and a falsy name or type keeps the stored one |
| Entities.ApplyChanges | backend/src/services/entityService.ts:116-139 | performing the requested column changes gives the field-by-field update |
| Entities.PushIfAsked | backend/src/services/entityService.ts:116-139 | one conditional push adds its column's assignment, with the next placeholder number, and its value exactly when the argument is asked for |
| Entities.BuildUpdate | backend/src/services/entityService.ts:112-150 | placeholders are numbered from 1, bind exactly the requested changes, and the last parameter is the entity id |
| Entities.Without | backend/src/services/entityService.ts:163 | the delete keeps exactly the rows with another id |
| Entities.WithoutKeepsUniqueIds | backend/src/services/entityService.ts:163 | after a delete, ids stay unique |
| Entities.EntityStore.constructor | backend/src/services/entityService.ts:17-33 | an empty entities table |
| Entities.EntityStore.CreateEntity | backend/src/services/entityService.ts:17-33 | appends one entity with a falsy parent stored as null, and returns it |
| Entities.EntityStore.GetChildren | backend/src/services/entityService.ts:61-68 | exactly the children of the entity, sorted by name |
| Entities.EntityStore.GetEntityWithHierarchy | backend/src/services/entityService.ts:36-58 | null iff the id is unknown; otherwise the entity with its direct children |
| Entities.EntityStore.GetEntityTree | backend/src/services/entityService.ts:81-100 | an unknown id fails with "Entité non trouvée"; otherwise the entity expanded three levels |
| Entities.EntityStore.UpdateEntity | backend/src/services/entityService.ts:103-153 | an unknown id fails with no change; otherwise only that row changes, to the field-by-field update |
| Entities.EntityStore.DeleteEntity | backend/src/services/entityService.ts:156-164 | refused with no change while the entity has children; otherwise exactly the row with that id is removed |
| Entities.EntityStore.GetEntitiesByType | backend/src/services/entityService.ts:71-78 | exactly the entities of the type, each once, sorted by name |
| Entities.EntityStore.GetAllEntities | backend/src/services/entityService.ts:167-173 | every entity once, sorted by type and then name |
| Entities.WithoutAbsent | backend/src/services/entityService.ts:163 | deleting an id no row has changes nothing |
| Entities.DeleteRemovesExactlyOne | backend/src/services/entityService.ts:163 | deleting an existing id removes exactly one row |
| Entities.SelfParentAccepted | backend/src/services/entityService.ts:124-127 | no cycle check: an entity may be made its own parent |
| Entities.ParentArgument | backend/src/services/entityService.ts:124-127 | an empty or null parent clears it; leaving it out keeps every field |
| Inventory.InSum | backend/src/controllers/inventoryController.ts:21-28 | the stock shown is never negative when no recorded quantity is |
| Inventory.Balance | backend/src/controllers/inventoryController.ts:147-156 | only completed movements of the item count: without any, the theoretical stock is 0 |
| Inventory.Regularisation | backend/src/controllers/inventoryController.ts:158-177 | no movement iff the count agrees; otherwise one completed movement of the item, of positive quantity, an entry iff the count is above the theoretical stock |
| Inventory.BalanceIsInMinusOut | backend/src/controllers/inventoryController.ts:147-156 | the theoretical stock is completed entries minus completed exits |
| Inventory.ExitCheck | backend/src/controllers/inventoryController.ts:105-119 | an exit is refused iff the completed entries sum to less than the quantity, with both figures |
| Inventory.RegularisationBalances | backend/src/controllers/inventoryController.ts:158-177 | after the count the theoretical stock equals the counted quantity; no movement is added iff none is needed, and an added one has a positive quantity |
| Inventory.RegularisationIsLocal | backend/src/controllers/inventoryController.ts:166-177 | the regularisation touches no other item's stock |
| Inventory.EntryRaisesStock | backend/src/controllers/inventoryController.ts:71-81 | an entry raises its item's stock by its quantity and no other item's |
| Inventory.ExitsAreNotSubtracted | backend/src/controllers/inventoryController.ts:105-111 | an accepted exit does not lower the stock the next check sees, so the same exit is accepted again |
| Inventory.RowOf | backend/src/controllers/inventoryController.ts:21-28 | an item's stock is its completed entries, and it is low iff that is at most its minimum |
| Inventory.AlertLevels | backend/src/controllers/inventoryController.ts:196-200 | a listed alert is never normal, and it is critical iff there is no stock |
| Inventory.LowRows | backend/src/controllers/inventoryController.ts:205 | exactly the low-stock items' rows |
| Inventory.LowStockAlerts | backend/src/controllers/inventoryController.ts:189-221 | the low-stock rows, each once, critical first and then by ascending stock |
| Inventory.CriticalFirst | backend/src/controllers/inventoryController.ts:206-211 | every alert listed before a critical one is critical |
| Inventory.AlertedIffLow | backend/src/controllers/inventoryController.ts:189-221 | an item is alerted iff its entries sum to at most its minimum |
| Inventory.ViewRows | backend/src/controllers/inventoryController.ts:15-18 | exactly the rows of the items passing the type filter and, when asked, the low-stock filter: every passing item's row is listed, and every listed row is the row of some item and passes both filters |
| Inventory.GetInventory | backend/src/controllers/inventoryController.ts:8-55 | the filtered rows, each once, sorted by name; only the text `true` turns on the low-stock filter |
| Inventory.StockLedger.constructor | backend/src/controllers/inventoryController.ts:58-90 | empty movement and count tables |
| Inventory.StockLedger.RecordStockEntry | backend/src/controllers/inventoryController.ts:58-90 | appends exactly one completed entry |
| Inventory.StockLedger.RecordStockExit | backend/src/controllers/inventoryController.ts:93-139 | a refused exit writes nothing; otherwise exactly one completed exit is appended |
| Inventory.StockLedger.PerformInventory | backend/src/controllers/inventoryController.ts:142-186 | records the count with its difference and leaves the theoretical stock equal to the counted quantity |
| Sales.QuoteTotal | backend/src/controllers/salesController.ts:19-22 | lines of zero quantity or zero price total 0 |
| Sales.QuoteTotalAppend | backend/src/controllers/salesController.ts:19-22 | the total of two line lists is the sum of their totals |
| Sales.QuoteTotalNonNegative | backend/src/controllers/salesController.ts:19-22 | non-negative quantities and prices give a non-negative total |
| Sales.ComputeTotal | backend/src/controllers/salesController.ts:19-22 | the loop accumulates the sum of quantity times unit price |
| Sales.Validity | backend/src/controllers/salesController.ts:13 | the 30-day default applies only when the field is left out |
| Sales.SalesStore.constructor | backend/src/controllers/salesController.ts:8-47 | empty quote and order tables |
| Sales.SalesStore.CreateQuote | backend/src/controllers/salesController.ts:8-47 | without a line list nothing is written; otherwise one draft quote with the computed total is appended |
| Sales.SalesStore.ConvertQuoteToOrder | backend/src/controllers/salesController.ts:95-142 | an unknown quote fails with no change; otherwise one pending order copies it and the quote becomes converted |
| Sales.SalesStore.SetOrderStatus | backend/src/controllers/deliveryController.ts:71-73 | changes the status of that order only, and nothing when it does not exist |
| Sales.ConvertTwice | backend/src/controllers/salesController.ts:95-142 | a quote's status is not checked: converting twice creates two orders with the same total |
| Delivery.TotalWeight | backend/src/controllers/deliveryController.ts:111-113 | with no load of positive quantity the total weight is not positive, so the cost per ton is 0 |
| Delivery.MissingQuantitiesWeighNothing | backend/src/controllers/deliveryController.ts:111-113 | items without a quantity weigh 0 |
| Delivery.TotalWeightNonNegative | backend/src/controllers/deliveryController.ts:111-113 | non-negative quantities give a non-negative weight |
| Delivery.CostPerTon | backend/src/controllers/deliveryController.ts:114 | no positive weight gives 0; a null fuel cost gives 0 and a missing one NaN |
| Delivery.CostPerTonRoundTrip | backend/src/controllers/deliveryController.ts:114 | the cost per ton times the tons carried is the fuel cost |
| Delivery.Coalesce | backend/src/controllers/deliveryController.ts:117-130 | a given value replaces the stored one; a left-out or null one keeps it |
| Delivery.Completed | backend/src/controllers/deliveryController.ts:116-130 | the completed row is delivered, keeps its identity and items, and stores the cost per ton |
| Delivery.CompletionWithoutMeasurements | backend/src/controllers/deliveryController.ts:117-130 | completing without measurements keeps every measured field |
| Delivery.DeliveryStore.constructor | backend/src/controllers/deliveryController.ts:42-82 | an empty deliveries table |
| Delivery.DeliveryStore.CreateDelivery | backend/src/controllers/deliveryController.ts:42-82 | appends one scheduled delivery and marks its order shipped |
| Delivery.DeliveryStore.CompleteDelivery | backend/src/controllers/deliveryController.ts:85-144 | an unknown delivery gives "Livraison non trouvée" with no change; a null item list fails with no change; otherwise only that row is completed and its order marked delivered |
| Delivery.OrderLifecycle | backend/src/controllers/deliveryController.ts:42-144 | a converted quote's order goes pending, shipped, delivered, with the fuel cost spread per ton |
| Costs.TotalCost | backend/src/controllers/costsController.ts:41-47 | non-negative components give a non-negative total, and an order with no recorded component costs 0 |
| Costs.CostOf | backend/src/controllers/costsController.ts:41-55 | a costed line keeps the order and quantity and carries the sum of the five components |
| Costs.CostOfRoundTrip | backend/src/controllers/costsController.ts:49 | the cost per ton times the tons produced is the total cost |
| Costs.UnrecordedCostsAreZero | backend/src/controllers/costsController.ts:28-32 | missing components count as 0 |
| Costs.ProductionCosts | backend/src/controllers/costsController.ts:7-65 | no more lines than orders |
| Costs.ProductionCostsExactly | backend/src/controllers/costsController.ts:22-56 | a line is answered iff it is the cost of a completed order in scope that produced something |
| Costs.OrderIdWinsOverDates | backend/src/controllers/costsController.ts:14-20 | with an order id the date range is ignored |
| Costs.HalfRangeFiltersNothing | backend/src/controllers/costsController.ts:17-20 | a range with one end missing filters nothing |
| Costs.ProfitFiltersNarrow | backend/src/controllers/costsController.ts:72-82 | the profitability filters add up: dropping one never loses a row |
| Costs.Margins | backend/src/controllers/costsController.ts:109-121 | each rate is 0 when its divisor is not positive |
| Costs.MarginsRoundTrip | backend/src/controllers/costsController.ts:110-114 | margin plus cost is revenue, and each positive divisor times its rate is a hundred times the margin |
| Costs.MarginRateSigns | backend/src/controllers/costsController.ts:112-114 | a rate is positive iff revenue exceeds cost, and the margin rate is at most 100 for a non-negative cost |
| Costs.DateFormat | backend/src/controllers/costsController.ts:136-143 | `week` and `day` choose their formats; anything else, or nothing, is monthly |
| Costs.EvolutionCostPerTon | backend/src/controllers/costsController.ts:148-154 | the per-order term is NULL iff nothing was produced |
| Costs.EvolutionOmitsMaintenanceAndOther | backend/src/controllers/costsController.ts:148-154 | the evolution's cost per ton never exceeds the per-order one, and equals it iff maintenance and other costs are 0 |
| Costs.Period | backend/src/controllers/costsController.ts:187-189 | exactly the completed orders produced in the period |
| Costs.SqlSum | backend/src/controllers/costsController.ts:183-186 | a sum over no rows is NULL |
| Costs.BreakdownOf | backend/src/controllers/costsController.ts:195-212 | all percentages are 0 when the total is not positive |
| Costs.SharesSumToHundred | backend/src/controllers/costsController.ts:196-212 | a positive total is shared out completely: the percentages sum to 100 |
| Costs.CostBreakdown | backend/src/controllers/costsController.ts:177-218 | with no completed order in the period the total is 0 |
| Costs.BreakdownLeavesOutOtherCosts | backend/src/controllers/costsController.ts:183-200 | the breakdown total plus the other costs is the sum of the per-order total costs |
| Iot.EvaluateCondition | backend/src/services/iotService.ts:170-189 | each of the five operators compares as named; any other operator is false |
| Iot.ComparisonsAgree | backend/src/services/iotService.ts:170-189 | `>=` and `<=` together hold iff `==` does; `>` and `<` never hold together |
| Iot.OrElse | backend/src/services/iotService.ts:82 | `max \|\| min` is the maximum unless it is null or 0 |
| Iot.ShouldAlert | backend/src/services/iotService.ts:66-77 | `>` alerts iff above the maximum, `<` iff below the minimum, `between` iff either; other operators never |
| Iot.BetweenIsEitherSide | backend/src/services/iotService.ts:73-76 | `between` alerts iff `>` or `<` would |
| Iot.Deviation | backend/src/services/iotService.ts:81-83 | the deviation is never negative |
| Iot.Range | backend/src/services/iotService.ts:84 | the range is never 0: a zero width becomes 1 |
| Iot.Band | backend/src/services/iotService.ts:86-94 | critical iff above half the range; low iff at most a tenth |
| Iot.BandMonotone | backend/src/services/iotService.ts:86-94 | a larger deviation is never less severe |
| Iot.LowReadingMeasuredFromMaximum | backend/src/services/iotService.ts:81-94 | a reading just below the minimum is critical while one just above the maximum is low |
| Iot.Triggering | backend/src/services/iotService.ts:56-79 | exactly the active thresholds of the reading's housing and sensor type that it crosses |
| Iot.ThresholdAlerts | backend/src/services/iotService.ts:62-105 | one alert per crossed threshold, in order |
| Iot.ThresholdAlertsStep | backend/src/services/iotService.ts:62-105 | taking one more threshold into account adds its alert exactly when the reading triggers it |
| Iot.ThresholdAlertsAreOpen | backend/src/services/iotService.ts:97-124 | every alert is an open threshold alert of the reading's device and housing, linked to the reading |
| Iot.OnlyApplicableThresholdsAlert | backend/src/services/iotService.ts:56-60 | thresholds of other housings or sensor types, or inactive ones, open nothing |
| Iot.Notices | backend/src/services/iotService.ts:129-135 | one notification per alert, with its severity and alert id |
| Iot.FiredRules | backend/src/services/iotService.ts:147-167 | exactly the active rules of the housing whose condition names the sensor type and holds |
| Iot.UntypedRuleNeverFires | backend/src/services/iotService.ts:159-161 | a rule without a sensor type never fires |
| Iot.IotStore.constructor | backend/src/services/iotService.ts:24 | empty readings, alerts and notifications over the given thresholds and rules |
| Iot.IotStore.CreateAlert | backend/src/services/iotService.ts:110-144 | appends one open alert and its notification |
| Iot.IotStore.CheckThresholds | backend/src/services/iotService.ts:54-107 | appends exactly one alert and one notification per crossed threshold |
| Iot.IotStore.CheckAutomationRules | backend/src/services/iotService.ts:147-167 | the loop runs exactly the rules that fire, in order |
| Iot.IotStore.RecordSensorData | backend/src/services/iotService.ts:26-51 | stores the reading, opens its threshold alerts and runs its rules |
| Iot.OverheatScenario | backend/src/services/iotService.ts:26-124 | a reading above a `>` threshold opens one open alert linked to it, with one notification |

## Left out

- Timestamps (`created_at`, `updated_at`, `NOW()`, `approved_at`) and the clock. The default date ranges of the cost evolution and breakdown are parameters.
- Ids generated by the database: rows that are never deleted get their position as id. A new entity's id is a parameter and must be fresh. Workflow validation ids are numbers, since a non-numeric id fails in the database.
- SQL text, parameter numbering and collation. Strings compare by character code. Only updateEntity's SET-list numbering is modelled, because the row it updates depends on it.
- The SQL `GROUP BY`/`SUM` and the sales-order join of getProfitability. Only the arithmetic on the grouped rows and the WHERE clause are modelled.
- The `AVG` over periods of getCostEvolution. Its per-order term is modelled; the quantity is divided as an exact real.
- getStockRotation, getLotTraceability, production KPIs, dashboard figures, and every `ROUND`/`toFixed`; stock value and average price of getInventory.
- Pagination and listing endpoints of sales and deliveries, PDF/Excel export, authentication (JWT, bcrypt), email and the contact form.
- Notifications are recorded as their priority and alert id only. Their title and text, and the alert message text, are left out. The automation action only writes a log; the model returns the rules that fire.
- Numeric columns that the driver may return as strings. Thresholds and rule values are numbers here; a rule value stored as a JSON string would never equal a reading under `===`.
- Concurrency: two concurrent approvals can race. Every operation runs alone here.
- Errors of the database itself (connection loss, constraint violations). Only the evaluator's fail-closed catch is modelled, as an unreachable directory.
- Rbac.FindRole: with duplicate role names the first row is taken; SQL does not promise which.
- Workflow.Reject: the `rejectedBy` argument is never stored, as in the source.
- Delivery.CostPerTon: a missing fuel cost gives NaN, stored as is; there is no floating point beyond that marker.
- Costs.Margins: a NULL sum is read as 0; other non-numeric text read by `parseFloat` is not modelled.
