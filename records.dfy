/** The plain records the bookstore passes around: cart items, order items,
    users, books, date-times and orders as values. */
module Records {

  /** A book id with a quantity: a cart line, and also one entry of the
      Map<Book, Integer> requests the inventory services receive. */
  datatype CartItem = CartItem(bookId: int, quantity: int)

  /** One line of a placed order. Prices are whole cents. */
  datatype OrderItem = OrderItem(bookId: int, title: string, quantity: int, priceCents: int)

  datatype User = User(id: int, username: string, firstName: string, lastName: string,
                       password: string, isAdmin: bool)

  /** One row of the books table. */
  datatype Book = Book(bookId: int, title: string, author: string, priceCents: int,
                       physicalCopies: int, soldCopies: int)

  /** A java.time.LocalDateTime. */
  datatype DateTime = DateTime(year: int, month: int, day: int, hour: int, minute: int,
                               second: int, nano: int)

  predicate ValidDateTime(d: DateTime)
  {
    && 1 <= d.month <= 12 && 1 <= d.day <= 31
    && 0 <= d.hour < 24 && 0 <= d.minute < 60 && 0 <= d.second < 60
    && 0 <= d.nano < 1_000_000_000
  }

  /** The date-times a LocalDateTime can hold: its fields are always in
      range. */
  type LocalDateTime = d: DateTime | ValidDateTime(d) witness DateTime(2000, 1, 1, 0, 0, 0, 0)

  /** An order as the admin screens and the CSV export read it. */
  datatype OrderRecord = OrderRecord(orderId: int, orderNumber: string, userId: int,
                                     totalCents: int, orderDate: LocalDateTime,
                                     items: seq<OrderItem>)
}
