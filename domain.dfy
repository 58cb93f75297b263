/**
 * The records of the platform (`src/types/index.ts`) that the modelled
 * components read and write. Money amounts are integers (rupiah); a
 * timestamp is an integer count of milliseconds; an optional field is an
 * `Option`.
 */
module Domain {
  import opened Seqs

  datatype WebsiteStatus = Draft | Published | Unpublished

  datatype Website = Website(
    websiteId: string,
    clientId: string,
    templateId: string,
    domain: string,
    siteName: string,
    status: WebsiteStatus,
    publishedAt: Option<string>)

  datatype Category = Category(categoryId: string, websiteId: string, name: string)

  datatype Product = Product(
    productId: string,
    websiteId: string,
    categoryId: string,
    name: string,
    description: Option<string>,
    price: int,
    stock: int,
    image: Option<string>)

  datatype Customer = Customer(customerId: string, websiteId: string, name: string, email: string)

  datatype OrderStatus = Pending | Processing | Shipped | Delivered | Cancelled

  datatype Order = Order(
    orderId: string,
    websiteId: string,
    customerId: string,
    totalAmount: int,
    status: OrderStatus,
    createdAt: int)

  datatype OrderItem = OrderItem(orderItemId: string, orderId: string, productId: string, qty: int, price: int)

  datatype SubscriptionPlan = SubscriptionPlan(planId: string, planName: string, price: int, duration: int)
}
