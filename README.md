# Bookstore stock bookkeeping, payment checks and admin lists in Dafny

This project models the core of a two-variant JavaFX bookstore. The two variants are
"beyourshelf" and "thereadingroom". The model covers:

- **The books table** (`IBookDAO`). It is a class `BookLedger.BookDao` holding the row order
  and, per book id, the catalogue data, the physical copies and the sold copies. Its
  update methods change those columns in place. Its queries (find, available copies, all
  books, title search, top five) are functions.
- **The beyourshelf `InventoryService`** (`ShelfInventory`). It reserves a cart's books
  with all-or-nothing rollback, reverts a reservation, and advances sold counts after
  payment.
- **The thereadingroom `InventoryService`** (`ReadingRoomInventory`), modelled as written.
  Its reservation checks and then reduces, with no rollback. Its revert overwrites the
  stock. Its finalize deducts the stock a second time. The `## Findings` table
  records each divergence.
- **Payment checks** (`PaymentValidator`, `PaymentService`, `Payment`). These cover card
  number, expiry date (`MM/yy`, not before the current month) and CVV. They also cover the
  conjunction of the three and the `"ORDER-"` reference. The `Payment` constructor reports
  the first failing check.
- **The add-to-cart path of the beyourshelf book tables** (`BookTableController`).
  - Quantity parsing with `Integer.parseInt` semantics.
  - The advisory stock check.
  - The upsert into the stored cart (`ICartDAO`).
  - The clear-then-rebuild sync of the in-memory cart.
- **The beyourshelf `SessionManager` and `Order` entity.**
  - Session: a set/clear state machine.
  - Order: field storage, plus the fixed-width `MM/dd/yyyy HH:mm` date rendering.
- **`CSVExportUtility`.** It builds the user export and the admin export: a header, then one
  unescaped line per order item.
- **The admin screens.**
  - Order list: filter by user id, then a stable in-place sort by date or total, plus the
    id-0 guard on removal.
  - User list: non-admins only, search by id or by lower-cased username.
  - Stock update: rejects bad numbers and negative values, then replaces the stock rather
    than adding to it.

Shared pieces:

- `JavaText`: the `java.lang` string and number behaviour the code relies on. This is
  `String.valueOf`, `Integer.parseInt`/`Long.parseLong`, `trim`, ASCII `toLowerCase` and
  `contains`.
- `Sorting`: the stable descending sort used by `List.sort` and the top-five query. It is
  specified as an insertion sort on sequences and run in place on an array.
- `Lists`: the order-preserving stream filter.

Inputs the code reads from the outside world become parameters:

| outside input | parameter |
|---|---|
| the clock (`YearMonth.now`, `LocalDateTime.now`, `System.currentTimeMillis`) | `now`, `currentMillis` |
| dialog answers | `confirmed`, dialog text as `Option<string>` |
| results of DAO calls not shown | `deleteSucceeds`, `fetched` |
| file I/O failure | `ioFails` |
| `LocalDateTime.toString` and `String.valueOf(double)` | `dateText`, `priceText` |

Prices are integer cents.

## Model

| member | source | states |
|---|---|---|
| BookLedger.BookDao.FindBookById | src/main/java/com/beyourshelf/model/dao/book/IBookDAO.java:71-77 | a book is returned exactly when the id is in the table, with that id and its current stock; None (null) otherwise |
| BookLedger.BookDao.GetAvailableCopies | src/main/java/com/beyourshelf/model/dao/book/IBookDAO.java:28-34 | the book's current physical copies; 0 for an id not in the table |
| BookLedger.BookDao.GetAllBooks | src/main/java/com/beyourshelf/model/dao/book/IBookDAO.java:14-19 | one book per row in row order, no book twice, and every book of the table appears |
| BookLedger.BookDao.SearchBooksByTitle | src/main/java/com/beyourshelf/model/dao/book/IBookDAO.java:63-69 | a book is listed iff it is in the table and its lower-cased title contains the lower-cased keyword |
| BookLedger.TitleMatches | src/main/java/com/beyourshelf/model/dao/book/IBookDAO.java:63-69 | the case-insensitive title filter keeps exactly the matching books and never more than the input |
| BookLedger.BookDao.GetTop5Books | src/main/java/com/beyourshelf/model/dao/book/IBookDAO.java:21-26 | min(5, number of books) distinct books of the table, ranked by non-increasing sold copies, and no book left out sells more than a listed one |
| BookLedger.TopFiveFrom | src/main/java/com/beyourshelf/model/dao/book/IBookDAO.java:21-26 | every book of the top five comes from the input |
| BookLedger.TopFiveLeftOut | src/main/java/com/beyourshelf/model/dao/book/IBookDAO.java:21-26 | a book not in the top five sells no more than any book in it |
| BookLedger.TopFiveRanked | src/main/java/com/beyourshelf/model/dao/book/IBookDAO.java:21-26 | on distinct books the top five is distinct and ordered by non-increasing sold copies |
| BookLedger.BookDao.UpdatePhysicalCopies | src/main/java/com/beyourshelf/model/dao/book/IBookDAO.java:36-43 | true iff the book exists; then its stock is replaced by newStock; every other column is unchanged |
| BookLedger.BookDao.ReducePhysicalCopies | src/main/java/com/beyourshelf/model/dao/book/IBookDAO.java:45-52 | true iff the book has at least quantity copies; only then is the stock lowered by quantity |
| BookLedger.BookDao.IncreasePhysicalCopies | src/main/java/com/beyourshelf/service/inventory/InventoryService.java:57-62 | true iff the book exists; its stock grows by quantity and nothing else changes |
| BookLedger.BookDao.UpdateSoldCopies | src/main/java/com/beyourshelf/model/dao/book/IBookDAO.java:54-61 | true iff the book exists; quantity is added to its sold count and the stock is unchanged |
| BookLedger.TryReduce | src/main/java/com/beyourshelf/service/inventory/InventoryService.java:33-38 | the conditional reduction keeps the same books and never makes a non-negative stock negative |
| BookLedger.ReduceAll | src/main/java/com/beyourshelf/service/inventory/InventoryService.java:33-38 | a run of conditional reductions keeps the same books and keeps every stock non-negative |
| BookLedger.ReduceAllStock | src/main/java/com/beyourshelf/service/inventory/InventoryService.java:35-48 | when every reduction succeeds, each book's stock drops by exactly the total quantity requested for it |
| BookLedger.IncreaseAllStock | src/main/java/com/beyourshelf/service/inventory/InventoryService.java:57-62 | adding back a list of items raises each book's stock by the total quantity listed for it |
| BookLedger.FailureExtends | src/main/java/com/beyourshelf/service/inventory/InventoryService.java:38-44 | a request whose prefix cannot be reserved cannot be reserved as a whole |
| BookLedger.FirstFailure | src/main/java/com/beyourshelf/service/inventory/InventoryService.java:38-44 | the first failed reduction makes the whole request fail |
| BookLedger.ReserveThenRevertRestores | src/main/java/com/beyourshelf/service/inventory/InventoryService.java:57-62 | reserving a request and then adding the same quantities back restores every stock |
| BookLedger.NoOversell | src/main/java/com/beyourshelf/service/inventory/InventoryService.java:33-38 | a request that can be reserved never asks a book for more copies than it has |
| BookLedger.ReduceAllElsewhere | src/main/java/com/beyourshelf/service/inventory/InventoryService.java:32-49 | books not named in the request keep their stock |
| BookLedger.CanReserveDistinct | src/main/java/com/beyourshelf/service/inventory/InventoryService.java:35-47 | with distinct book ids, a request can be reserved iff each entry fits the original stock |
| ShelfInventory.InventoryService.ReserveBooks | src/main/java/com/beyourshelf/service/inventory/InventoryService.java:32-49 | true iff every reduction succeeds, and then the stock is the reduced stock; on false every stock equals its old value, and some entry did not fit after the earlier ones; sold counts and the catalogue never change |
| ShelfInventory.InventoryService.RevertReservations | src/main/java/com/beyourshelf/service/inventory/InventoryService.java:57-62 | each item's quantity is added back to its book's stock; sold counts unchanged |
| ShelfInventory.InventoryService.FinalizeStockAdjustments | src/main/java/com/beyourshelf/service/inventory/InventoryService.java:70-79 | each quantity is added to the sold count and the physical copies stay as they are |
| ReadingRoomInventory.InventoryService.ReserveBooks | src/main/java/com/thereadingroom/service/inventory/InventoryService.java:31-41 | true iff every entry passes "available >= quantity" when it is examined, and then every entry is reduced; on false the entries before the failing one stay reduced |
| ReadingRoomInventory.SameAcceptance | src/main/java/com/thereadingroom/service/inventory/InventoryService.java:33-38 | for positive quantities, the check-then-reduce accepts exactly the requests the conditional reduction accepts |
| ReadingRoomInventory.NotPassedExtends | src/main/java/com/thereadingroom/service/inventory/InventoryService.java:33-36 | once an entry fails the check the request is rejected |
| ReadingRoomInventory.EqualStockAccepted | src/main/java/com/thereadingroom/service/inventory/InventoryService.java:34 | a quantity equal to the available copies passes, as the comparison is strict |
| ReadingRoomInventory.NoRollbackExample | src/main/java/com/thereadingroom/service/inventory/InventoryService.java:31-41 | a failed request leaves the earlier entry reduced (5 copies become 2) |
| ReadingRoomInventory.InventoryService.RevertReservations | src/main/java/com/thereadingroom/service/inventory/InventoryService.java:48-53 | each existing book's stock is set to the item quantity |
| ReadingRoomInventory.OverwriteAllValue | src/main/java/com/thereadingroom/service/inventory/InventoryService.java:48-53 | after the revert, a book named once has exactly the item quantity, whatever its stock was |
| ReadingRoomInventory.RevertOverwritesExample | src/main/java/com/thereadingroom/service/inventory/InventoryService.java:48-53 | reserving 3 of 5 copies and reverting leaves 3 copies, where adding back leaves 5 |
| ReadingRoomInventory.InventoryService.FinalizeStockAdjustments | src/main/java/com/thereadingroom/service/inventory/InventoryService.java:60-75 | physical copies are reduced again and sold counts are increased |
| ReadingRoomInventory.DoubleDeduction | src/main/java/com/thereadingroom/service/inventory/InventoryService.java:60-70 | reserve followed by finalize lowers each stock by twice the quantity bought |
| ReadingRoomInventory.DoubleDeductionExample | src/main/java/com/thereadingroom/service/inventory/InventoryService.java:60-70 | 10 copies with 3 bought end at 4 instead of 7 |
| PaymentValidator.ParseExpiry | src/main/java/com/thereadingroom/utils/auth/PaymentValidator.java:41 | a parsed expiry has month 01-12, a two-digit year read as 20yy, and came from five characters with '/' in the middle |
| PaymentValidator.ParseFormatExpiry | src/main/java/com/thereadingroom/utils/auth/PaymentValidator.java:10 | rendering a year-month as MM/yy and parsing it gives it back |
| PaymentValidator.FormatParseExpiry | src/main/java/com/thereadingroom/utils/auth/PaymentValidator.java:10 | every accepted expiry text is exactly the MM/yy rendering of its value |
| PaymentValidator.ValidateCardNumber | src/main/java/com/thereadingroom/utils/auth/PaymentValidator.java:19-27 | no error iff the number is exactly 16 ASCII digits; null or empty gives the empty message; anything else the 16-digit message |
| PaymentValidator.ValidateExpiryDate | src/main/java/com/thereadingroom/utils/auth/PaymentValidator.java:36-49 | no error iff the text parses as MM/yy and is not before the current month; the empty message first, then the format message, then the past-date message |
| PaymentValidator.ValidateCvv | src/main/java/com/thereadingroom/utils/auth/PaymentValidator.java:58-66 | no error iff exactly 3 ASCII digits; the empty message first, then the 3-digit message |
| PaymentValidator.CurrentMonthAccepted | src/main/java/com/thereadingroom/utils/auth/PaymentValidator.java:42-44 | the current month is accepted and the month before it is rejected as past |
| PaymentService.ValidatePayment | src/main/java/com/thereadingroom/service/payment/PaymentService.java:41-45 | true iff all three validators report no error, that is 16 digits, a current or future MM/yy, and 3 digits |
| PaymentService.ProcessPayment | src/main/java/com/thereadingroom/service/payment/PaymentService.java:57-67 | a reference is returned iff the payment validates, and it is "ORDER-" followed by the timestamp |
| PaymentService.HolderNameIgnored | src/main/java/com/thereadingroom/service/payment/PaymentService.java:41-58 | the card holder name never changes either result |
| PaymentService.OrderReferenceReadsBack | src/main/java/com/thereadingroom/service/payment/PaymentService.java:60 | the reference starts with "ORDER-" and the rest parses back to the timestamp |
| PaymentService.OrderReferenceInjective | src/main/java/com/thereadingroom/service/payment/PaymentService.java:60 | different timestamps give different references |
| PaymentEntity.CheckPayment | src/main/java/com/thereadingroom/model/entity/Payment.java:42-60 | passes iff all three checks pass; otherwise fails with the card message, else the expiry message, else the CVV message |
| PaymentEntity.NewPayment | src/main/java/com/thereadingroom/model/entity/Payment.java:26-32 | succeeds iff the payment validates, storing all four fields unchanged; otherwise the exception message is the first failing check's |
| PaymentEntity.CardNumberFirst | src/main/java/com/thereadingroom/model/entity/Payment.java:44-47 | a null or empty card number is reported first whatever the other fields hold |
| Carts.Upsert | src/main/java/com/beyourshelf/model/dao/cart/ICartDAO.java:34-42 | an existing book's lines get the new quantity and the length stays; a new book is appended; other lines are untouched |
| Carts.UpsertSetsQuantity | src/main/java/com/beyourshelf/model/dao/cart/ICartDAO.java:34-42 | after the upsert the cart holds the book, and every line for it carries the new quantity |
| Carts.CartStore.GetCartItems | src/main/java/com/beyourshelf/model/dao/cart/ICartDAO.java:44-50 | the stored lines of the cart; none for an unknown cart |
| Carts.CartStore.GetOrCreateCart | src/main/java/com/beyourshelf/model/dao/cart/ICartDAO.java:17-23 | the user's existing cart, or a new empty cart recorded for the user |
| Carts.CartStore.AddOrUpdateBookInCart | src/main/java/com/beyourshelf/model/dao/cart/ICartDAO.java:34-42 | the cart's lines become the upsert of the book with the quantity; other carts are unchanged |
| Carts.ShoppingCart.constructor | src/main/java/com/beyourshelf/controller/common/LoginController.java:187 | a cart for the user and cart id with no lines |
| Carts.ShoppingCart.AddBook | src/main/java/com/beyourshelf/controller/user/BookTableController.java:183 | the line is appended |
| Carts.ShoppingCart.ClearCart | src/main/java/com/beyourshelf/controller/user/BookTableController.java:199 | no lines remain |
| BookTable.ParseQuantity | src/main/java/com/beyourshelf/controller/user/BookTableController.java:141-150 | succeeds iff the text parses as a 32-bit int that is positive, returning it unchanged; "Please enter a valid number." for bad text, "Quantity must be greater than 0." otherwise |
| BookTable.ParseQuantityOfDecimal | src/main/java/com/beyourshelf/controller/user/BookTableController.java:143-146 | every positive int typed in decimal is read back unchanged; every other int is refused as not positive |
| BookTable.BookTableController.Mirror | src/main/java/com/beyourshelf/controller/user/BookTableController.java:200-203 | one in-memory line per stored item, in store order, with the book found by id and the item's quantity |
| BookTable.BookTableController.SyncCartWithDatabase | src/main/java/com/beyourshelf/controller/user/BookTableController.java:197-204 | the in-memory cart is exactly the mirror of the stored items |
| BookTable.BookTableController.UpdateCart | src/main/java/com/beyourshelf/controller/user/BookTableController.java:182-189 | the user's stored cart is upserted with the book and quantity, the in-memory cart mirrors it, and other users' carts are unchanged |
| BookTable.BookTableController.ValidateStockAndAddToCart | src/main/java/com/beyourshelf/controller/user/BookTableController.java:161-173 | a missing cart is refused first; then the book is added iff its latest stock is at least the quantity, else "Only N copies available."; a refusal changes neither cart |
| BookTable.BookTableController.HandleAddButton | src/main/java/com/beyourshelf/controller/user/BookTableController.java:121-132 | a cancelled dialog shows nothing; a parse failure shows "Invalid Input" with the parse message; a parsed quantity gives the success alert iff a cart exists and the latest stock covers it, and then the stored cart is upserted and the in-memory cart mirrors it; a missing cart or short stock shows "Invalid Input" with the refusal message; without the alert neither cart changes |
| Session.SessionManager.constructor | src/main/java/com/beyourshelf/utils/auth/SessionManager.java:11-19 | a fresh session has user id 0 and no names and no cart |
| Session.SessionManager.SetUserDetails | src/main/java/com/beyourshelf/utils/auth/SessionManager.java:43-48 | the getters return the four values given and the cart is unchanged |
| Session.SessionManager.SetShoppingCart | src/main/java/com/beyourshelf/utils/auth/SessionManager.java:93-95 | the cart getter returns the cart and every other getter is unchanged |
| Session.SessionManager.ClearSession | src/main/java/com/beyourshelf/utils/auth/SessionManager.java:110-116 | the fresh state is restored, so clearing twice is the same as clearing once |
| Session.ClearedStateUnique | src/main/java/com/beyourshelf/utils/auth/SessionManager.java:110-116 | any two cleared sessions agree on every getter |
| OrderEntity.Order.constructor | src/main/java/com/beyourshelf/model/entity/Order.java:29-35 | number, user, total and items are stored as given, the date is the current time and the id is 0 |
| OrderEntity.Order.Empty | src/main/java/com/beyourshelf/model/entity/Order.java:37-39 | every field holds Java's default value |
| OrderEntity.Order.SetOrderId | src/main/java/com/beyourshelf/model/entity/Order.java:49-51 | only the id changes |
| OrderEntity.Order.SetOrderNumber | src/main/java/com/beyourshelf/model/entity/Order.java:58-60 | only the order number changes |
| OrderEntity.Order.SetUserId | src/main/java/com/beyourshelf/model/entity/Order.java:68-70 | only the user id changes |
| OrderEntity.Order.SetTotalPrice | src/main/java/com/beyourshelf/model/entity/Order.java:77-79 | only the total changes |
| OrderEntity.Order.SetOrderItems | src/main/java/com/beyourshelf/model/entity/Order.java:92-94 | only the items change |
| OrderEntity.Order.SetOrderDate | src/main/java/com/beyourshelf/model/entity/Order.java:97-99 | only the date changes |
| OrderEntity.Order.GetFormattedOrderDate | src/main/java/com/beyourshelf/model/entity/Order.java:107-110 | a text exactly when a date is set (a null date throws), 16 characters long for years 1 to 9999 |
| OrderEntity.FormatOrderDate | src/main/java/com/beyourshelf/model/entity/Order.java:107-110 | at least 16 characters with '/' at positions 2 and 5; exactly 16 for years 1 to 9999 |
| OrderEntity.FormatYear | src/main/java/com/beyourshelf/model/entity/Order.java:107-110 | four zero-padded digits for years 1 to 9999, a leading '+' beyond |
| OrderEntity.FormatOrderDateReadBack | src/main/java/com/beyourshelf/model/entity/Order.java:107-110 | the text reads back as zero-padded month, day, year, 24-hour hour and minute, separated by '/', '/', ' ', ':' |
| OrderEntity.FormatOrderDateInjective | src/main/java/com/beyourshelf/model/entity/Order.java:107-110 | two dates with the same text agree to the minute |
| CsvExport.WriteOrders | src/main/java/com/thereadingroom/utils/export/CSVExportUtility.java:32-49 | the nested loops write the header, then one line per item, orders in list order and items in list order |
| CsvExport.ExportOrdersToCsv | src/main/java/com/thereadingroom/utils/export/CSVExportUtility.java:24-61 | true iff no I/O error; the text starts with the four-column header and holds one user line per item |
| CsvExport.ExportAdminOrdersToCsv | src/main/java/com/thereadingroom/utils/export/CSVExportUtility.java:71-109 | true iff no I/O error; the text starts with the six-column header and holds one admin line per item |
| CsvExport.AdminLineExtendsUserLine | src/main/java/com/thereadingroom/utils/export/CSVExportUtility.java:86-97 | an admin line is the order number, a comma, the user id, a comma, and then the user line |
| CsvExport.BodyConcat | src/main/java/com/thereadingroom/utils/export/CSVExportUtility.java:32-49 | the lines of two order lists written one after the other are the lines of their concatenation |
| CsvExport.EmptyOrderWritesNothing | src/main/java/com/thereadingroom/utils/export/CSVExportUtility.java:38 | an order with no items contributes no line |
| CsvExport.BodyLineCount | src/main/java/com/thereadingroom/utils/export/CSVExportUtility.java:32-49 | with one line break per item line, the body has as many line breaks as items |
| CsvExport.UserExportLineCount | src/main/java/com/thereadingroom/utils/export/CSVExportUtility.java:29-49 | when dates, prices and titles hold no line break, the user export has 1 + (number of items) lines |
| CsvExport.AdminExportLineCount | src/main/java/com/thereadingroom/utils/export/CSVExportUtility.java:75-99 | the same for the admin export, when order numbers hold no line break either |
| CsvExport.UserLineCommas | src/main/java/com/thereadingroom/utils/export/CSVExportUtility.java:40-47 | a user line holds 3 separator commas plus every comma of the date, price and title text, so nothing is quoted or escaped |
| Lists.Filter | src/main/java/com/thereadingroom/controller/admin/AdminOrderController.java:155-157 | the stream filter keeps exactly the elements satisfying the predicate, never more than the input |
| Lists.FilterIsSubsequence | src/main/java/com/thereadingroom/controller/admin/AdminOrderController.java:155-157 | the filter keeps the input order |
| Lists.FilterIdempotent | src/main/java/com/thereadingroom/controller/admin/AdminOrderController.java:155-157 | filtering twice keeps what filtering once kept |
| Sorting.SortDescPermutes | src/main/java/com/thereadingroom/controller/admin/AdminOrderController.java:167-174 | the sort is a permutation of its input |
| Sorting.SortDescSorted | src/main/java/com/thereadingroom/controller/admin/AdminOrderController.java:167-174 | the sort lists its input by non-increasing key |
| Sorting.SortDescStable | src/main/java/com/thereadingroom/controller/admin/AdminOrderController.java:167-174 | the elements with equal keys keep their input order (List.sort is stable) |
| Sorting.SortDescDistinct | src/main/java/com/thereadingroom/controller/admin/AdminOrderController.java:167-174 | a list without repetitions sorts to a list without repetitions |
| Sorting.InsertInPlace | src/main/java/com/thereadingroom/controller/admin/AdminOrderController.java:167-174 | one insertion step on the array: the prefix becomes the sorted insertion of the next element and the rest is untouched |
| Sorting.ShiftRight | src/main/java/com/thereadingroom/controller/admin/AdminOrderController.java:167-174 | the elements of the sorted prefix with a smaller key than the inserted one, and only those, move one slot right; the rest of the array is untouched |
| Sorting.SortInPlace | src/main/java/com/thereadingroom/controller/admin/AdminOrderController.java:167-174 | the array ends holding exactly the stable descending sort of its old contents |
| AdminOrders.DateKeyOrder | src/main/java/com/thereadingroom/controller/admin/AdminOrderController.java:169 | the integer date key orders dates as LocalDateTime.compareTo does, and equal keys mean equal dates |
| AdminOrders.FilterByUserSelects | src/main/java/com/thereadingroom/controller/admin/AdminOrderController.java:151-158 | filtering by the decimal text of n keeps exactly the orders of user n, in order |
| AdminOrders.PaddedFilterMatchesNothing | src/main/java/com/thereadingroom/controller/admin/AdminOrderController.java:156 | a filter such as "07" or "+5" matches no order, since the comparison is on strings |
| AdminOrders.SortByDateNewestFirst | src/main/java/com/thereadingroom/controller/admin/AdminOrderController.java:168-169 | "Order Date" lists no order before an older one |
| AdminOrders.SortByTotalDescending | src/main/java/com/thereadingroom/controller/admin/AdminOrderController.java:170-171 | "Total Price" lists orders by non-increasing total |
| AdminOrders.SortOrdersStablePermutation | src/main/java/com/thereadingroom/controller/admin/AdminOrderController.java:167-174 | every sort option gives a permutation; the two sorts are stable, and any other option leaves the order alone |
| AdminOrders.ApplyFilter | src/main/java/com/thereadingroom/controller/admin/AdminOrderController.java:151-158 | an empty filter returns the same list object; otherwise a new list of the matching orders |
| AdminOrders.ApplySort | src/main/java/com/thereadingroom/controller/admin/AdminOrderController.java:167-174 | the list is sorted in place and returned |
| AdminOrders.AdminOrderController.constructor | src/main/java/com/thereadingroom/controller/admin/AdminOrderController.java:129-132 | the fetched orders are loaded and shown |
| AdminOrders.AdminOrderController.LoadOrders | src/main/java/com/thereadingroom/controller/admin/AdminOrderController.java:129-132 | the fetched orders become the list and the table |
| AdminOrders.AdminOrderController.ApplyFilterAndSort | src/main/java/com/thereadingroom/controller/admin/AdminOrderController.java:137-142 | the table shows the sort of the filter by the trimmed text; with an empty filter the loaded list itself is sorted, otherwise it is untouched |
| AdminOrders.AdminOrderController.HandleRemoveOrder | src/main/java/com/thereadingroom/controller/admin/AdminOrderController.java:232-248 | delete is requested iff confirmed and the id is not 0; id 0 shows the invalid-id error; success reloads, failure shows the error and keeps the list |
| AdminUsers.NonAdminsExactly | src/main/java/com/beyourshelf/controller/admin/AdminManageUsersController.java:141-148 | the loaded list holds exactly the non-admin users, in order |
| AdminUsers.FilterUsersExactly | src/main/java/com/beyourshelf/controller/admin/AdminManageUsersController.java:188-193 | a user is kept iff its decimal id equals the query or its lower-cased username contains it; order is kept |
| AdminUsers.UserMatchesOwnIdAndName | src/main/java/com/beyourshelf/controller/admin/AdminManageUsersController.java:190-191 | every user matches its own id and its own lower-cased username |
| AdminUsers.AdminManageUsersController.constructor | src/main/java/com/beyourshelf/controller/admin/AdminManageUsersController.java:141-148 | the non-admin users are loaded and shown |
| AdminUsers.AdminManageUsersController.LoadUsers | src/main/java/com/beyourshelf/controller/admin/AdminManageUsersController.java:141-148 | the list and the table become the non-admin users of the fetch |
| AdminUsers.AdminManageUsersController.HandleSearchUser | src/main/java/com/beyourshelf/controller/admin/AdminManageUsersController.java:164-180 | the query is trimmed and lower-cased; empty shows all; no match shows "Search Error" and keeps the table; else the matches are shown |
| AdminUsers.AdminManageUsersController.HandleRemoveUser | src/main/java/com/beyourshelf/controller/admin/AdminManageUsersController.java:214-242 | delete is requested iff confirmed; success shows the alert and reloads; failure shows the error and keeps the lists |
| AdminStock.DecideStockUpdate | src/main/java/com/thereadingroom/controller/admin/AdminStockController.java:189-198 | bad numbers iff either trimmed text fails parseInt; negative iff both parse and the stock is below 0; otherwise replace with the parsed id and stock |
| AdminStock.DecideStockUpdateOfDecimals | src/main/java/com/thereadingroom/controller/admin/AdminStockController.java:189-198 | space-padded decimal id and stock are read back exactly, so a non-negative stock is a replacement |
| AdminStock.AdminStockController.constructor | src/main/java/com/thereadingroom/controller/admin/AdminStockController.java:85-88 | the table shows all books |
| AdminStock.AdminStockController.LoadBooks | src/main/java/com/thereadingroom/controller/admin/AdminStockController.java:85-88 | the table shows all books |
| AdminStock.AdminStockController.HandleSearchBooks | src/main/java/com/thereadingroom/controller/admin/AdminStockController.java:173-181 | an empty trimmed keyword shows all books; otherwise the title search for it |
| AdminStock.AdminStockController.HandleUpdateStock | src/main/java/com/thereadingroom/controller/admin/AdminStockController.java:188-208 | bad numbers or a negative stock show "Invalid Input" and change nothing; otherwise the stock is replaced (not added to), and the table is reloaded only on success |
| JavaText.ParseIntToString | src/main/java/com/beyourshelf/controller/user/BookTableController.java:143 | Integer.parseInt reads back String.valueOf of any int |
| JavaText.IntToStringInjective | src/main/java/com/thereadingroom/controller/admin/AdminOrderController.java:156 | different numbers have different decimal texts |
| JavaText.TrimIdempotent | src/main/java/com/beyourshelf/controller/admin/AdminManageUsersController.java:165 | trimming twice trims nothing more |
| JavaText.ContainsAt | src/main/java/com/beyourshelf/controller/admin/AdminManageUsersController.java:191 | String.contains holds iff the needle sits at some offset |

## Left out

- The thereadingroom `IBookDAO` and `BookService` are not part of this model. The thereadingroom inventory service runs on the beyourshelf books table.
- `ShoppingCart.java` is not part of this model. `addBook` is modelled as appending a line and `clearCart` as removing every line.
- The `ICartDAO` implementation is not part of this model. `addOrUpdateBookInCart` follows its interface comment: replace the quantity, or append.
- BookLedger.BookDao.GetAvailableCopies: the DAO implementation is not part of this model, so the value for an unknown book (0) is a choice of the model.
- `addBook`, `updateBook` and `deleteBookById` of `IBookDAO` are left out. No modelled operation calls them.
- A Java `NullPointerException` shows no dialog in the model; `GetFormattedOrderDate` returns None for a missing date.
- BookTable.BookTableController.ValidateStockAndAddToCart: a book that is missing from the table is treated as the `NullPointerException` of the source: nothing changes and no message is shown.
- Prices are integer cents. `Double.compare` on NaN and -0.0 is left out, as are `String.valueOf(double)` and `String.format`.
- `LocalDateTime.toString` and the price text in the CSV lines are function parameters.
- Clocks are parameters: `YearMonth.now`, `LocalDateTime.now` and `System.currentTimeMillis`.
- File I/O is the `ioFails` flag, and the text is what the writer receives. The partial file left by an error is not modelled.
- CsvExport.ExportOrdersToCsv: a null item list, a null item or a null order date throws in the source and is not modelled. A null title or order number is written as the text "null" by `Writer.append`; the model's titles and order numbers cannot be null, so that case is not modelled either.
- OrderEntity.FormatYear: years before year 1 are written as their year of era, without an era marker. Java's `yyyy` pattern does the same.
- Console logging is left out: the `System.out`/`System.err` lines of both `finalizeStockAdjustments`, of `PaymentService` and of the CSV export.
- A `Map<Book, Integer>` request is a `seq<CartItem>` in the map's iteration order. Every contract holds for any order.
- BookLedger.BookDao.IncreasePhysicalCopies: `increasePhysicalCopies` is called by the beyourshelf inventory service but not declared in the `IBookDAO` shown. "True iff the book exists, stock grows by quantity" is the model's reading of its name and of the rollback comment.
- The JavaFX user interface is left out: dialogs, table wiring, scene loading and the `getInstance` singletons.
- `handleExportOrders`, `handleEditUser`, `handleEditBook`, `handleAddBook` and `handleRemoveBook` open dialogs or other screens and are left out.
- Concurrency is left out, including the race between check and reduce. The conditional reduction is taken as atomic.
- The thereadingroom `Order` entity is not part of this model. The value `Records.OrderRecord` stands in for it.
- `toLowerCase` is modelled on ASCII letters only. `parseInt` accepts ASCII digits only; Java also accepts other Unicode digits.

## Findings

| source | as written | input that shows it | evidently intended | confidence | as-written member | corrected member |
|---|---|---|---|---|---|---|
| src/main/java/com/thereadingroom/service/inventory/InventoryService.java:31-41 | a failed reservation leaves every earlier entry reduced | 5 copies of book 1 and 0 of book 2; request 3 of book 1, then 1 of book 2: false, and book 1 keeps 2 copies | all-or-nothing: on false every stock is as before | not executed | ReadingRoomInventory.NoRollbackExample | ShelfInventory.InventoryService.ReserveBooks |
| src/main/java/com/thereadingroom/service/inventory/InventoryService.java:48-53 | revert overwrites the stock with the item quantity | 5 copies; reserve 3, then revert 3: 3 copies remain | revert adds the quantity back, restoring the stock | not executed | ReadingRoomInventory.RevertOverwritesExample | BookLedger.ReserveThenRevertRestores |
| src/main/java/com/thereadingroom/service/inventory/InventoryService.java:60-70 | finalize reduces the already reserved stock a second time | 10 copies; reserve 3, then finalize 3: 4 copies remain | finalize only advances the sold count, leaving 7 copies | not executed | ReadingRoomInventory.DoubleDeductionExample | ShelfInventory.InventoryService.FinalizeStockAdjustments |
