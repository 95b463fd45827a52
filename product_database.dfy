/** The static product catalog that matching is prompted with and that the
    lab-fee rules read. */
module ProductDatabase {
  import opened Types
  import opened Text

  const Ap001: Product := Product("AP-001", "Royale Luxury Emulsion", "Interior", 450, ["Sheen Finish", "Teflon", "Anti-Bacterial"])
  const Ap002: Product := Product("AP-002", "Apex Ultima Protek", "Exterior", 650, ["Lamination Guard", "10-Year Warranty", "Weather-Proof"])
  const Ap003: Product := Product("AP-003", "Apcolite Premium Enamel", "Wood Finish", 380, ["High Gloss", "Stain Resistant"])
  const Ap004: Product := Product("AP-004", "Apex Dust Proof", "Exterior", 550, ["Dust Guard", "Anti-Algal"])
  const Ap005: Product := Product("AP-005", "Royale Aspira", "Interior", 900, ["Gold Standard", "Crack Bridging", "Water Beading"])
  const Ap006: Product := Product("AP-006", "Woodtech PU Luxury", "Wood Finish", 850, ["UV Resistance", "Non-Yellowing"])
  const Ap007: Product := Product("AP-007", "Truegrip Ultra Primer", "Primer", 180, ["Alkali Resistant", "Strong Adhesion"])
  const Ap008: Product := Product("AP-008", "SmartCare Damp Proof", "Waterproofing", 400, ["Fiber Reinforced", "Terrace Waterproofing"])
  const Ap009: Product := Product("AP-009", "Tractor Emulsion", "Interior", 220, ["Smooth Finish", "Affordable"])
  const Ap010: Product := Product("AP-010", "Metropolis Texture", "Exterior", 1200, ["Stone Finish", "Artistic"])

  const Products: seq<Product> := [Ap001, Ap002, Ap003, Ap004, Ap005, Ap006, Ap007, Ap008, Ap009, Ap010]

  /** `ps.find(p => p.id === id)`: the first product carrying this id, if any. */
  function FindIn(ps: seq<Product>, id: string): (r: Option<Product>)
    ensures r.Some? ==> exists i :: 0 <= i < |ps| && ps[i] == r.value && r.value.id == id
                                    && forall j :: 0 <= j < i ==> ps[j].id != id
    ensures r.None? <==> forall i :: 0 <= i < |ps| ==> ps[i].id != id
  {
    if |ps| == 0 then None
    else if ps[0].id == id then Some(ps[0])
    else
      var r := FindIn(ps[1..], id);
      assert forall i :: 1 <= i < |ps| ==> ps[i] == ps[1..][i - 1];
      r
  }

  function Find(id: string): Option<Product> {
    FindIn(Products, id)
  }

  const CatalogIds: seq<string> :=
    ["AP-001", "AP-002", "AP-003", "AP-004", "AP-005", "AP-006", "AP-007", "AP-008", "AP-009", "AP-010"]

  /** Ten products whose ids are AP-001 .. AP-010, in order, and pairwise distinct. */
  lemma CatalogIdsAreUnique()
    ensures |Products| == 10
    ensures forall i :: 0 <= i < 10 ==> Products[i].id == CatalogIds[i]
    ensures forall i, j :: 0 <= i < j < |Products| ==> Products[i].id != Products[j].id
  {
    forall i, j | 0 <= i < j < |Products| ensures Products[i].id != Products[j].id {
      assert Products[i].id[5] != Products[j].id[5] || Products[i].id[4] != Products[j].id[4];
    }
  }

  /** Looking up a catalog id yields that very product; any other id yields nothing. */
  lemma FindResolvesCatalogIds(id: string)
    ensures Find(id).Some? <==> id in CatalogIds
    ensures forall i :: 0 <= i < |Products| && Products[i].id == id ==> Find(id) == Some(Products[i])
  {
    CatalogIdsAreUnique();
    if Find(id).Some? {
      var i :| 0 <= i < |Products| && Products[i] == Find(id).value && Products[i].id == id;
      assert CatalogIds[i] == id;
    }
    if id in CatalogIds {
      var k :| 0 <= k < |CatalogIds| && CatalogIds[k] == id;
      assert Products[k].id == id;
    }
  }

  /** The Exterior products are AP-002, AP-004 and AP-010; the Interior ones are
      AP-001, AP-005 and AP-009. */
  lemma CategoriesOfCatalog()
    ensures forall p :: p in Products ==> (p.category == "Exterior" <==> p.id in {"AP-002", "AP-004", "AP-010"})
    ensures forall p :: p in Products ==> (p.category == "Interior" <==> p.id in {"AP-001", "AP-005", "AP-009"})
  {
  }

  /** A name in which neither case of the letter `c` occurs cannot contain, once
      lower-cased, a word spelled with `c`. */
  lemma NameLacksWord(name: string, w: string, c: char, upper: char)
    requires 'a' <= c <= 'z' && upper == (c as int - 32) as char && c in w
    requires c !in name && upper !in name
    ensures !Contains(ToLower(name), w)
  {
    assert forall i :: 0 <= i < |name| ==> name[i] != c && name[i] != upper;
    assert c !in ToLower(name);
    if Contains(ToLower(name), w) {
      ContainsHasChars(ToLower(name), w, c);
    }
  }

  /** Each catalog name, lower-cased, lacks "floor": it lacks one of its letters
      in either case. */
  lemma Ap001NameLacksLetter(name: string) requires name == "Royale Luxury Emulsion"
    ensures 'f' !in name && 'F' !in name {}
  lemma Ap001NameLacksFloor() ensures !Contains(ToLower(Ap001.name), "floor") {
    Ap001NameLacksLetter(Ap001.name);
    NameLacksWord(Ap001.name, "floor", 'f', 'F');
  }
  lemma Ap002NameLacksLetter(name: string) requires name == "Apex Ultima Protek"
    ensures 'f' !in name && 'F' !in name {}
  lemma Ap002NameLacksFloor() ensures !Contains(ToLower(Ap002.name), "floor") {
    Ap002NameLacksLetter(Ap002.name);
    NameLacksWord(Ap002.name, "floor", 'f', 'F');
  }
  lemma Ap003NameLacksLetter(name: string) requires name == "Apcolite Premium Enamel"
    ensures 'f' !in name && 'F' !in name {}
  lemma Ap003NameLacksFloor() ensures !Contains(ToLower(Ap003.name), "floor") {
    Ap003NameLacksLetter(Ap003.name);
    NameLacksWord(Ap003.name, "floor", 'f', 'F');
  }
  lemma Ap004NameLacksLetter(name: string) requires name == "Apex Dust Proof"
    ensures 'l' !in name && 'L' !in name {}
  lemma Ap004NameLacksFloor() ensures !Contains(ToLower(Ap004.name), "floor") {
    Ap004NameLacksLetter(Ap004.name);
    NameLacksWord(Ap004.name, "floor", 'l', 'L');
  }
  lemma Ap005NameLacksLetter(name: string) requires name == "Royale Aspira"
    ensures 'f' !in name && 'F' !in name {}
  lemma Ap005NameLacksFloor() ensures !Contains(ToLower(Ap005.name), "floor") {
    Ap005NameLacksLetter(Ap005.name);
    NameLacksWord(Ap005.name, "floor", 'f', 'F');
  }
  lemma Ap006NameLacksLetter(name: string) requires name == "Woodtech PU Luxury"
    ensures 'f' !in name && 'F' !in name {}
  lemma Ap006NameLacksFloor() ensures !Contains(ToLower(Ap006.name), "floor") {
    Ap006NameLacksLetter(Ap006.name);
    NameLacksWord(Ap006.name, "floor", 'f', 'F');
  }
  lemma Ap007NameLacksLetter(name: string) requires name == "Truegrip Ultra Primer"
    ensures 'f' !in name && 'F' !in name {}
  lemma Ap007NameLacksFloor() ensures !Contains(ToLower(Ap007.name), "floor") {
    Ap007NameLacksLetter(Ap007.name);
    NameLacksWord(Ap007.name, "floor", 'f', 'F');
  }
  lemma Ap008NameLacksLetter(name: string) requires name == "SmartCare Damp Proof"
    ensures 'l' !in name && 'L' !in name {}
  lemma Ap008NameLacksFloor() ensures !Contains(ToLower(Ap008.name), "floor") {
    Ap008NameLacksLetter(Ap008.name);
    NameLacksWord(Ap008.name, "floor", 'l', 'L');
  }
  lemma Ap009NameLacksLetter(name: string) requires name == "Tractor Emulsion"
    ensures 'f' !in name && 'F' !in name {}
  lemma Ap009NameLacksFloor() ensures !Contains(ToLower(Ap009.name), "floor") {
    Ap009NameLacksLetter(Ap009.name);
    NameLacksWord(Ap009.name, "floor", 'f', 'F');
  }
  lemma Ap010NameLacksLetter(name: string) requires name == "Metropolis Texture"
    ensures 'f' !in name && 'F' !in name {}
  lemma Ap010NameLacksFloor() ensures !Contains(ToLower(Ap010.name), "floor") {
    Ap010NameLacksLetter(Ap010.name);
    NameLacksWord(Ap010.name, "floor", 'f', 'F');
  }

  /** No catalog product is Industrial or has "floor" in its lower-cased name. */
  lemma NoIndustrialOrFloorProduct()
    ensures forall p :: p in Products ==> p.category != "Industrial" && !Contains(ToLower(p.name), "floor")
  {
    Ap001NameLacksFloor();
    Ap002NameLacksFloor();
    Ap003NameLacksFloor();
    Ap004NameLacksFloor();
    Ap005NameLacksFloor();
    Ap006NameLacksFloor();
    Ap007NameLacksFloor();
    Ap008NameLacksFloor();
    Ap009NameLacksFloor();
    Ap010NameLacksFloor();
  }

  lemma PricesArePositive()
    ensures forall p :: p in Products ==> p.unitPrice > 0
  {
  }
}
