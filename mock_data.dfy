/** The sample catalogue, posts and orders the pages start from, and their record shapes. */
module MockData {

  /** A listed product. Prices and quantities are whole numbers. */
  datatype Product = Product(
    id: string, name: string, price: int, quantity: int, category: string,
    image: string, farmer: string, unit: string)

  /** A community post; `liked` records whether the current user liked it. */
  datatype CommunityPost = CommunityPost(
    id: string, author: string, avatar: string, content: string, category: string,
    likes: int, comments: int, time: string, liked: bool)

  /** A placed order; `status` is one of the order-tracking keys. */
  datatype Order = Order(
    id: string, product: string, quantity: int, price: int, status: string,
    date: string, buyer: string)

  const Products: seq<Product> := [
    Product("1", "Organic Tomatoes", 40, 500, "vegetables",
            "https://images.unsplash.com/photo-1546470427-0d4db154ceb8?w=400",
            "Rajesh Kumar", "kg"),
    Product("2", "Basmati Rice", 120, 1000, "grains",
            "https://images.unsplash.com/photo-1586201375761-83865001e31c?w=400",
            "Suresh Patil", "kg"),
    Product("3", "Fresh Mangoes", 80, 300, "fruits",
            "https://images.unsplash.com/photo-1553279768-865429fa0078?w=400",
            "Anita Devi", "kg"),
    Product("4", "Green Chillies", 30, 200, "spices",
            "https://images.unsplash.com/photo-1583119022894-919a68a3d0e3?w=400",
            "Mohan Singh", "kg"),
    Product("5", "Fresh Milk", 60, 100, "dairy",
            "https://images.unsplash.com/photo-1563636619-e9143da7973b?w=400",
            "Lakshmi Farms", "L"),
    Product("6", "Organic Potatoes", 25, 800, "vegetables",
            "https://images.unsplash.com/photo-1518977676601-b53f82ber633?w=400",
            "Ramesh Yadav", "kg"),
    Product("7", "Turmeric Powder", 200, 150, "spices",
            "https://images.unsplash.com/photo-1615485500704-8e990f9900f7?w=400",
            "Priya Sharma", "kg"),
    Product("8", "Fresh Bananas", 35, 400, "fruits",
            "https://images.unsplash.com/photo-1571771894821-ce9b6c11b08e?w=400",
            "Vijay Reddy", "dozen"),
    Product("9", "Wheat Flour", 45, 600, "grains",
            "https://images.unsplash.com/photo-1574323347407-f5e1ad6d020b?w=400",
            "Geeta Devi", "kg")
  ]

  const Posts: seq<CommunityPost> := [
    CommunityPost("1", "Rajesh Kumar", "RK",
      "Just harvested 500 kg of organic tomatoes this season! The new drip irrigation system really helped.",
      "crop", 24, 8, "2 hours ago", false),
    CommunityPost("2", "Anita Devi", "AD",
      "Tomato prices are up 15% this week at the Pune mandi. Good time to sell!",
      "prices", 45, 12, "4 hours ago", false),
    CommunityPost("3", "Mohan Singh", "MS",
      "PM-KISAN scheme installment credited today. Have you all received yours?",
      "schemes", 67, 23, "6 hours ago", false),
    CommunityPost("4", "Priya Sharma", "PS",
      "Tip: Use neem oil spray to protect crops from pests naturally. Works great on chilli plants!",
      "tips", 89, 15, "1 day ago", false)
  ]

  const Orders: seq<Order> := [
    Order("ORD001", "Organic Tomatoes", 5, 200, "delivered", "2026-02-20", "Amit Shah"),
    Order("ORD002", "Basmati Rice", 10, 1200, "outForDelivery", "2026-02-25", "Neha Gupta"),
    Order("ORD003", "Fresh Mangoes", 3, 240, "accepted", "2026-02-26", "Rohit Verma"),
    Order("ORD004", "Green Chillies", 2, 60, "pending", "2026-02-27", "Sita Ram")
  ]
}
