/**
 * Display names of product types, and the fallback the product list uses
 * for a code that has no display name.
 */
module Utils {
  import opened Definitions
  import opened MockData

  /** The product-type codes the `ProductType` union admits. */
  const ProductTypeCodes: set<string> := {
    "ART_OPEN_A1", "ART_A1", "ART_OPEN_A2", "ART_A2", "LIB_A1", "LIB_A",
    "CAP_LIB_A1", "CAP_LIB_A", "PA1", "PA2", "MA1", "MA2", "VV_A1", "VV_A2",
    "VA_A", "AAD_A1", "AAD_A", "RNL_A", "ART_OPEN_B", "ART_B", "ART_OPEN_C",
    "ART_C", "LIB_B", "CAP_LIB_B", "PA3", "PA4", "MA3", "MA4", "VV_A3", "VV_A4",
    "VA_B", "AAD_B", "DI_A", "ECI", "PP", "PI", "SD", "SE", "FIS", "GPP_A",
    "GPP_B", "FCP_A", "FCP_B", "EC_A", "EC_B", "TC_A", "TC_B", "TC_C", "NSG",
    "ERL", "PCD_A1", "PCD_A2"
  }

  /** `productTypeLabels`: the Spanish display name of each labelled code. */
  const ProductTypeLabels: map<string, string> := map[
    "ART_OPEN_A1" := "Artículo A1",
    "LIB_A1" := "Libro A1",
    "CAP_LIB_A1" := "Capítulo de Libro A1",
    "PA1" := "Patente A1",
    "SF" := "Software",
    "DI" := "Diseño Industrial",
    "EM_A" := "Empresa de Base Tecnológica",
    "GEN_CONT_IMP" := "Contenido Impreso",
    "GEN_CONT_VIRT" := "Contenido Virtual",
    "TES_DOC" := "Tesis Doctoral",
    "TES_MAES" := "Tesis de Maestría",
    "PROY_ID_FOR" := "Proyecto Formativo"
  ]

  /**
   * The badge text of a product type: its label when it has a non-empty one
   * (`labels[code] || code`), and the raw code otherwise.
   */
  function DisplayProductType(code: string): (r: string)
    ensures code in ProductTypeLabels ==> r == ProductTypeLabels[code]
    ensures code !in ProductTypeLabels ==> r == code
    ensures r != ""  || code == ""
  {
    if code in ProductTypeLabels && ProductTypeLabels[code] != "" then ProductTypeLabels[code] else code
  }

  /** Every label is non-empty, so a labelled code is always shown by its label. */
  lemma LabelsNonEmpty()
    ensures forall c <- ProductTypeLabels :: ProductTypeLabels[c] != ""
    ensures forall c <- ProductTypeLabels :: DisplayProductType(c) == ProductTypeLabels[c]
  {
  }

  /** The table labels twelve codes. */
  lemma LabelCount()
    ensures |ProductTypeLabels| == 12
  {
    var m: map<string, string> := map[];
    assert "ART_OPEN_A1" !in m;
    m := m["ART_OPEN_A1" := "Artículo A1"];
    assert "LIB_A1" !in m;
    m := m["LIB_A1" := "Libro A1"];
    assert "CAP_LIB_A1" !in m;
    m := m["CAP_LIB_A1" := "Capítulo de Libro A1"];
    assert "PA1" !in m;
    m := m["PA1" := "Patente A1"];
    assert "SF" !in m;
    m := m["SF" := "Software"];
    assert "DI" !in m;
    m := m["DI" := "Diseño Industrial"];
    assert "EM_A" !in m;
    m := m["EM_A" := "Empresa de Base Tecnológica"];
    assert "GEN_CONT_IMP" !in m;
    m := m["GEN_CONT_IMP" := "Contenido Impreso"];
    assert "GEN_CONT_VIRT" !in m;
    m := m["GEN_CONT_VIRT" := "Contenido Virtual"];
    assert "TES_DOC" !in m;
    m := m["TES_DOC" := "Tesis Doctoral"];
    assert "TES_MAES" !in m;
    m := m["TES_MAES" := "Tesis de Maestría"];
    assert "PROY_ID_FOR" !in m;
    m := m["PROY_ID_FOR" := "Proyecto Formativo"];
    assert m == ProductTypeLabels;
  }

  /** Labelled codes are shown by their fixed label. */
  lemma SampleBadges()
    ensures DisplayProductType("ART_OPEN_A1") == "Artículo A1"
    ensures DisplayProductType("PA1") == "Patente A1"
    ensures DisplayProductType("TES_DOC") == "Tesis Doctoral"
  {
  }

  /** Four of the labelled codes belong to the `ProductType` union. */
  lemma LabelledUnionCodes()
    ensures forall c <- ["ART_OPEN_A1", "LIB_A1", "CAP_LIB_A1", "PA1"] :: c in ProductTypeLabels && c in ProductTypeCodes
  {
  }

  /**
   * Of the four codes the product generator cycles through, all belong to the
   * `ProductType` union, but only the first has a label: the other three are
   * shown as their raw code.
   */
  lemma GeneratorTypeBadges()
    ensures forall t <- ProductTypes :: t in ProductTypeCodes
    ensures DisplayProductType(ProductTypes[0]) == "Artículo A1"
    ensures forall k :: 1 <= k < 4 ==> ProductTypes[k] !in ProductTypeLabels && DisplayProductType(ProductTypes[k]) == ProductTypes[k]
  {
  }

  /** The badge of every generated product follows the four-code cycle. */
  lemma GeneratedProductBadges(projectId: string, count: nat)
    ensures forall i :: 0 <= i < count ==>
      DisplayProductType(GenerateProducts(projectId, count)[i].productType)
        == (if i % 4 == 0 then "Artículo A1" else ProductTypes[i % 4])
  {
    GeneratedProductsWellFormed(projectId, count);
    GeneratorTypeBadges();
  }
}
