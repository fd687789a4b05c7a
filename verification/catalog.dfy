/** The fixed catalogs of constants.ts: expense/income categories and payment
    methods, with lookup by identifier. */
module Catalog {
  import opened Wrappers
  import opened Types
  import opened Text

  /** The style classes of the rent category. */
  const RENT_COLOR: string := "text-cyan-400 bg-cyan-500/10 border-cyan-500/20"

  const CATEGORIES: seq<Category> := [
    Category("rent", "Aluguel/Moradia", "Home", RENT_COLOR),
    Category("streaming", "Streaming/Apps", "Music", "text-fuchsia-400 bg-fuchsia-500/10 border-fuchsia-500/20"),
    Category("travel", "Viagens", "Plane", "text-yellow-400 bg-yellow-500/10 border-yellow-500/20"),
    Category("food", "Alimentação", "Coffee", "text-orange-400 bg-orange-500/10 border-orange-500/20"),
    Category("shopping", "Compras", "ShoppingBag", "text-pink-400 bg-pink-500/10 border-pink-500/20"),
    Category("utilities", "Contas (Luz/Água)", "Zap", "text-yellow-300 bg-yellow-400/10 border-yellow-400/20"),
    Category("transport", "Transporte", "Car", "text-red-400 bg-red-500/10 border-red-500/20"),
    Category("internet", "Internet/Celular", "Wifi", "text-blue-400 bg-blue-500/10 border-blue-500/20"),
    Category("salary", "Salário", "Briefcase", "text-emerald-400 bg-emerald-500/10 border-emerald-500/20"),
    Category("health", "Saúde", "HeartPulse", "text-rose-400 bg-rose-500/10 border-rose-500/20"),
    Category("entertainment", "Lazer", "Gamepad2", "text-violet-400 bg-violet-500/10 border-violet-500/20")
  ]

  datatype PaymentOption = PaymentOption(id: PaymentMethod, caption: string, icon: string)

  const PAYMENT_METHODS: seq<PaymentOption> := [
    PaymentOption(CreditCard, "Crédito", "CreditCard"),
    PaymentOption(DebitCard, "Débito", "CreditCard"),
    PaymentOption(Pix, "Pix", "QrCode"),
    PaymentOption(Cash, "Dinheiro", "Banknote"),
    PaymentOption(Other, "Outro", "Wallet")
  ]

  /** `CATEGORIES.find(c => c.id === id)`: the first catalog entry with that id. */
  function FindCategory(id: string): (r: Option<Category>)
    ensures r.Some? ==> r.value in CATEGORIES && r.value.id == id
    ensures r.None? <==> forall i :: 0 <= i < |CATEGORIES| ==> CATEGORIES[i].id != id
  {
    FindIn(CATEGORIES, id)
  }

  function FindIn(cats: seq<Category>, id: string): (r: Option<Category>)
    ensures r.Some? ==> exists i :: 0 <= i < |cats| && cats[i] == r.value && cats[i].id == id &&
                          forall j :: 0 <= j < i ==> cats[j].id != id
    ensures r.None? <==> forall i :: 0 <= i < |cats| ==> cats[i].id != id
  {
    if cats == [] then None
    else if cats[0].id == id then Some(cats[0])
    else
      var r := FindIn(cats[1..], id);
      assert forall i :: 1 <= i < |cats| ==> cats[i] == cats[1..][i - 1];
      r
  }

  /** `cat?.name.split('/')[0]`: the short display name of a category. */
  function ShortName(c: Category): (r: string)
    ensures |r| <= |c.name| && r == c.name[..|r|] && '/' !in r
    ensures |r| < |c.name| ==> c.name[|r|] == '/'
  {
    FirstSegment(c.name)
  }

  /** The catalog identifiers are pairwise distinct, so a lookup by id is unambiguous. */
  lemma CategoryIdsDistinct()
    ensures forall i, j :: 0 <= i < j < |CATEGORIES| ==> CATEGORIES[i].id != CATEGORIES[j].id
  {
  }
}
