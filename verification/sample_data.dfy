/** A fragment of the bundled sample tables: one city, one restaurant and one dish. */
module Sample {
  import opened Tables

  const NewYork: Courses := Courses(
    [Item("Buffalo Wings", "Anchor Bar"), Item("Calamari", "Del Posto"), Item("Bruschetta", "Carbone")],
    [Item("NY Strip Steak", "Peter Luger"), Item("Pizza Margherita", "Lombardi's"),
     Item("Lobster Thermidor", "Le Bernardin")],
    [Item("New York Cheesecake", "Junior's"), Item("Tiramisu", "Veniero's"),
     Item("Chocolate Souffl\U{E9}", "Le Cirque")])

  const PeterLuger: Courses := Courses(
    [Item("Thick-cut Bacon", "Peter Luger"), Item("Tomato & Onion Salad", "Peter Luger"),
     Item("Caesar Salad", "Peter Luger")],
    [Item("Porterhouse for Two", "Peter Luger"), Item("NY Strip Steak", "Peter Luger"),
     Item("Ribeye", "Peter Luger")],
    [Item("Hot Fudge Sundae", "Peter Luger"), Item("Key Lime Pie", "Peter Luger"),
     Item("Apple Strudel", "Peter Luger")])

  const Pizza: Ranking := Ranking(
    [Item("Pizza Margherita", "L'Antica Pizzeria da Michele, Naples"),
     Item("Pizza Marinara", "Pizzeria Gino Sorbillo, Naples"),
     Item("NY Style Pizza", "Lombardi's, New York")],
    [Item("Hawaiian Pizza", "Pizza Palace, London"), Item("Dessert Pizza", "Pizza Hut, Various"),
     Item("Anchovy Pizza", "Pizza Corner, Sydney")])

  const Data: SampleData := SampleData(
    map["new york" := NewYork],
    map["peter luger" := PeterLuger],
    map["pizza" := Pizza])
}
