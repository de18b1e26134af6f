/**
 * The static order tables the pages fall back on: eight order summaries, the
 * full detail of each, and the lookup that answers a placeholder detail for an
 * unknown id.
 */
module StaticOrders {
  import opened Wrappers
  import opened Domain

  /** The order list, in the order the tables show it. */
  const Orders: seq<Order> := [
    Order("ORD-001", "Acme Corp", "Web Application", "In Progress", "2025-11-20", 5500.0),
    Order("ORD-002", "TechStart Inc", "Mobile App", "Completed", "2025-11-15", 8200.0),
    Order("ORD-003", "Digital Solutions", "API Development", "In Progress", "2025-11-25", 3400.0),
    Order("ORD-004", "Global Systems", "Database Design", "Pending", "2025-11-18", 2800.0),
    Order("ORD-005", "Innovation Labs", "E-commerce Site", "In Progress", "2025-12-01", 12000.0),
    Order("ORD-006", "CloudTech Solutions", "Cloud Migration", "Pending", "2025-11-22", 9500.0),
    Order("ORD-007", "Startup Ventures", "MVP Development", "In Progress", "2025-12-05", 15000.0),
    Order("ORD-008", "Enterprise Corp", "System Integration", "Completed", "2025-11-10", 22000.0)
  ]

  /** The full detail of every order, keyed by id; these rows carry no update time. */
  const OrderDetails: map<string, OrderDetail> := map[
    "ORD-001" := OrderDetail("ORD-001", "Acme Corp", "contact@acmecorp.com", "Web Application", "In Progress",
      "2025-11-20", 5500.0,
      "Full-stack web application with user authentication, dashboard, and payment integration.",
      "2025-11-01", None, "Client requested modern UI with React and TypeScript"),
    "ORD-002" := OrderDetail("ORD-002", "TechStart Inc", "hello@techstart.io", "Mobile App", "Completed",
      "2025-11-15", 8200.0,
      "Cross-platform mobile app for iOS and Android with React Native.",
      "2025-10-20", None, "Successfully delivered ahead of schedule"),
    "ORD-003" := OrderDetail("ORD-003", "Digital Solutions", "solutions@digital.com", "API Development", "In Progress",
      "2025-11-25", 3400.0,
      "RESTful API development with authentication and rate limiting.",
      "2025-11-05", None, "API documentation required"),
    "ORD-004" := OrderDetail("ORD-004", "Global Systems", "info@globalsystems.com", "Database Design", "Pending",
      "2025-11-18", 2800.0,
      "PostgreSQL database design and optimization for high-traffic application.",
      "2025-11-08", None, "Waiting for requirements finalization"),
    "ORD-005" := OrderDetail("ORD-005", "Innovation Labs", "contact@innovationlabs.io", "E-commerce Site", "In Progress",
      "2025-12-01", 12000.0,
      "Complete e-commerce platform with shopping cart, payment gateway, and inventory management.",
      "2025-10-25", None, "Client wants Stripe integration"),
    "ORD-006" := OrderDetail("ORD-006", "CloudTech Solutions", "admin@cloudtech.com", "Cloud Migration", "Pending",
      "2025-11-22", 9500.0,
      "Migrate on-premise infrastructure to AWS with Docker and Kubernetes.",
      "2025-11-10", None, "Need security audit before migration"),
    "ORD-007" := OrderDetail("ORD-007", "Startup Ventures", "hello@startupventures.co", "MVP Development", "In Progress",
      "2025-12-05", 15000.0,
      "Minimum viable product for social networking platform with real-time features.",
      "2025-10-28", None, "Focus on user engagement features"),
    "ORD-008" := OrderDetail("ORD-008", "Enterprise Corp", "projects@enterprise.com", "System Integration", "Completed",
      "2025-11-10", 22000.0,
      "Integration of CRM, ERP, and marketing automation systems with unified dashboard.",
      "2025-10-15", None, "Project completed successfully with bonus payment")
  ]

  /** The placeholder detail shown for an id the table does not hold. */
  function UnknownOrder(id: string): (d: OrderDetail)
    ensures d.id == id && d.status == "Pending" && d.amount == 0.0
  {
    OrderDetail(id, "Unknown Client", "N/A", "Unknown", "Pending", "N/A", 0.0,
      "No description available", "N/A", None, "No notes")
  }

  /** `getOrderById`: the stored detail for a known id, the placeholder carrying the id otherwise. */
  function GetOrderById(id: string): (d: OrderDetail)
    ensures id in OrderDetails ==> d == OrderDetails[id]
    ensures id !in OrderDetails ==> d == UnknownOrder(id)
    ensures d.id == id
  {
    if id in OrderDetails then
      TableKeyedById(id);
      OrderDetails[id]
    else UnknownOrder(id)
  }

  /** Every detail is stored under its own id. */
  lemma TableKeyedById(id: string)
    requires id in OrderDetails
    ensures OrderDetails[id].id == id
  {
  }

  /** Every listed order has a detail whose summary is that order. */
  lemma TablesAgree()
    ensures forall i :: 0 <= i < |Orders| ==>
      Orders[i].id in OrderDetails && OrderDetails[Orders[i].id].Summary() == Orders[i]
  {
  }

  /** Every detail belongs to a listed order: the tables hold the same ids. */
  lemma DetailsAreListed()
    ensures forall id :: id in OrderDetails ==> exists i :: 0 <= i < |Orders| && Orders[i].id == id
  {
    forall id | id in OrderDetails ensures exists i :: 0 <= i < |Orders| && Orders[i].id == id {
      if id == "ORD-001" { assert Orders[0].id == id; }
      else if id == "ORD-002" { assert Orders[1].id == id; }
      else if id == "ORD-003" { assert Orders[2].id == id; }
      else if id == "ORD-004" { assert Orders[3].id == id; }
      else if id == "ORD-005" { assert Orders[4].id == id; }
      else if id == "ORD-006" { assert Orders[5].id == id; }
      else if id == "ORD-007" { assert Orders[6].id == id; }
      else { assert Orders[7].id == id; }
    }
  }

  /** The listed ids are distinct, every amount is positive and every status is valid. */
  lemma OrdersWellFormed()
    ensures forall i, j :: 0 <= i < j < |Orders| ==> Orders[i].id != Orders[j].id
    ensures forall i :: 0 <= i < |Orders| ==> Orders[i].amount > 0.0 && IsOrderStatus(Orders[i].status)
  {
  }

  /** A listed order's lookup gives back that order's summary. */
  lemma LookupOfListedOrder(i: nat)
    requires i < |Orders|
    ensures GetOrderById(Orders[i].id).Summary() == Orders[i]
  {
    TablesAgree();
  }
}
