/** The custom-cake order wizard (`Pedidos` in src/app/components/pedidos/pedidos.ts):
    the three-step machine, the extra elements and their price, the preview
    text, and the submit guard with its completion handlers. */
module OrderWizard {
  import opened Basics
  import opened Strings

  datatype ElementOption = ElementOption(key: string, text: string, price: int)
  datatype DecorationOption = DecorationOption(text: string, price: int, emoji: string)

  const Cake: string := "\U{1F382}"
  const Sparkles: string := "\U{2728}"

  /** `decorationOptions`. */
  const DecorationOptions: seq<DecorationOption> := [
    DecorationOption("Cl\U{E1}sica", 0, "\U{1F382}"),
    DecorationOption("Infantil", 15, "\U{1F3AA}"),
    DecorationOption("Elegante", 25, "\U{1F48E}"),
    DecorationOption("Personalizada", 35, "\U{1F3A8}")]

  /** `elementOptions`. */
  const ElementOptions: seq<ElementOption> := [
    ElementOption("flores", "\U{1F338} Flores Naturales", 20),
    ElementOption("perlas", "\U{1F48E} Perlas Comestibles", 15),
    ElementOption("figuras", "\U{1F3AD} Figuras Personalizadas", 25),
    ElementOption("luces", "\U{2728} Luces LED", 18)]

  const Step1Title: string := "Paso 1: Configuraci\U{F3}n B\U{E1}sica"
  const Step2Title: string := "Paso 2: Decoraci\U{F3}n y Estilo"
  const Step3Title: string := "Paso 3: Detalles Finales"

  const IncompleteMessage: string := "Completa nombre y correo antes de agregar al carrito."
  const SuccessPrefix: string := "Pedido agregado correctamente. ID: "
  const ErrorMessage: string := "Error al enviar el pedido."

  /** The price `elementOptions.find` gives a key; an unknown key adds nothing. */
  function PriceOfKey(key: string): (p: int)
    ensures (forall i :: 0 <= i < |ElementOptions| ==> ElementOptions[i].key != key) ==> p == 0
    ensures forall i :: 0 <= i < |ElementOptions| && ElementOptions[i].key == key ==>
      p == ElementOptions[i].price
  {
    var isKey := (o: ElementOption) => o.key == key;
    match FirstIndex(ElementOptions, isKey)
    case Some(i) => ElementOptions[i].price
    case None => 0
  }

  /** Σ of `price` over the keys, each occurrence counted. */
  function SumPrices(keys: seq<string>, price: string -> int): int
    decreases |keys|
  {
    if keys == [] then 0 else SumPrices(keys[..|keys| - 1], price) + price(keys[|keys| - 1])
  }

  /** Σ of the prices of the selected keys, each occurrence counted. */
  function ExtrasOf(keys: seq<string>): int {
    SumPrices(keys, PriceOfKey)
  }

  /** `selectedElements.filter(k => k !== key)`. */
  function RemoveKey(keys: seq<string>, key: string): (r: seq<string>)
    ensures forall x :: x in r <==> x in keys && x != key
    ensures |r| <= |keys|
    decreases |keys|
  {
    if keys == [] then []
    else if keys[|keys| - 1] == key then RemoveKey(keys[..|keys| - 1], key)
    else RemoveKey(keys[..|keys| - 1], key) + [keys[|keys| - 1]]
  }

  function CountKey(keys: seq<string>, key: string): nat
    decreases |keys|
  {
    if keys == [] then 0 else CountKey(keys[..|keys| - 1], key) + (if keys[|keys| - 1] == key then 1 else 0)
  }

  lemma SumPricesAppend(keys: seq<string>, key: string, price: string -> int)
    ensures SumPrices(keys + [key], price) == SumPrices(keys, price) + price(key)
  {
    assert (keys + [key])[..|keys|] == keys;
  }

  lemma {:induction false} SumPricesRemoveKey(keys: seq<string>, key: string, price: string -> int)
    ensures SumPrices(RemoveKey(keys, key), price) == SumPrices(keys, price) - CountKey(keys, key) * price(key)
    decreases |keys|
  {
    if keys != [] {
      var init := keys[..|keys| - 1];
      var last := keys[|keys| - 1];
      var rest := RemoveKey(init, key);
      SumPricesRemoveKey(init, key, price);
      if last != key {
        SumPricesAppend(rest, last, price);
        KeepOne(SumPrices(rest, price), SumPrices(init, price), CountKey(init, key), price(key), price(last));
      } else {
        DropOneMore(SumPrices(rest, price), SumPrices(init, price), CountKey(init, key), price(key));
      }
    }
  }

  /** Arithmetic step of `SumPricesRemoveKey`, kept apart so the solver does
      not search the products: a kept key adds its price on both sides. */
  lemma KeepOne(rest: int, all: int, count: int, price: int, extra: int)
    requires rest == all - count * price
    ensures rest + extra == (all + extra) - count * price
  {
  }

  /** Arithmetic step of `SumPricesRemoveKey`: one more dropped occurrence
      takes away one more price. */
  lemma DropOneMore(rest: int, all: int, count: int, price: int)
    requires rest == all - count * price
    ensures rest == (all + price) - (count + 1) * price
  {
  }

  /** Checking an element adds its price once more. */
  lemma ExtrasAppend(keys: seq<string>, key: string)
    ensures ExtrasOf(keys + [key]) == ExtrasOf(keys) + PriceOfKey(key)
  {
    SumPricesAppend(keys, key, PriceOfKey);
  }

  /** Unchecking an element takes away its price once for every time it was selected. */
  lemma ExtrasRemoveKey(keys: seq<string>, key: string)
    ensures ExtrasOf(RemoveKey(keys, key)) == ExtrasOf(keys) - CountKey(keys, key) * PriceOfKey(key)
  {
    SumPricesRemoveKey(keys, key, PriceOfKey);
  }

  /** The flavour emoji table of `updatePreview`, with the cake as fallback. */
  function FlavorEmoji(flavorPrice: int): string {
    if flavorPrice == 25 then "\U{1F382}"
    else if flavorPrice == 30 then "\U{1F36B}"
    else if flavorPrice == 35 then "\U{1F353}"
    else if flavorPrice == 40 then "\U{2764}\U{FE0F}"
    else if flavorPrice == 45 then "\U{1F95B}"
    else if flavorPrice == 38 then "\U{1F955}"
    else if flavorPrice == 42 then "\U{1F34B}"
    else Cake
  }

  /** The emoji of the first decoration with that price, sparkles when none has it. */
  function DecorationEmoji(decorationPrice: int): (e: string)
    ensures (forall i :: 0 <= i < |DecorationOptions| ==> DecorationOptions[i].price != decorationPrice) ==> e == Sparkles
    ensures forall i :: 0 <= i < |DecorationOptions| && DecorationOptions[i].price == decorationPrice ==>
      e == DecorationOptions[i].emoji
  {
    var hasPrice := (d: DecorationOption) => d.price == decorationPrice;
    match FirstIndex(DecorationOptions, hasPrice)
    case Some(i) => DecorationOptions[i].emoji
    case None => Sparkles
  }

  function PreviewDescription(emoji: string, decoration: string): string {
    "Pastel " + emoji + " - " + decoration
  }

  /** The body `onSubmit` posts to /api/pedidos. */
  datatype PedidoPayload = PedidoPayload(
    nombre: string,
    email: string,
    producto: string,
    cantidad: int,
    fecha_entrega: Option<string>,
    nota: string)

  /** The compact product text: preview, then the message or '-'. */
  function ProductoDesc(previewDescription: string, personalMessage: string): string {
    "Personalizado: " + previewDescription + " - Mensaje: " + (if personalMessage == "" then "-" else personalMessage) + " "
  }

  /** `'Pedido agregado correctamente. ID: ' + (res.id || 'N/A')`. */
  function SuccessMessage(resId: Option<int>): string {
    SuccessPrefix + (if resId.Some? && resId.value != 0 then IntToString(resId.value) else "N/A")
  }

  class Pedidos {
    var nombre: string
    var email: string
    var flavorPrice: int
    var decorationPrice: int
    var extrasPrice: int
    var selectedElements: seq<string>
    var personalMessage: string
    var fechaEntrega: Option<string>
    var nota: string
    var currentStep: int
    var previewEmoji: string
    var previewDecoration: string
    var previewDescription: string
    var enviando: bool
    var mensaje: string
    /** The payloads handed to `crearPedido`, oldest first. */
    var sent: seq<PedidoPayload>

    ghost predicate Valid()
      reads this
    {
      1 <= currentStep <= 3
    }

    constructor ()
      ensures Valid() && currentStep == 1
      ensures nombre == "" && email == "" && selectedElements == [] && extrasPrice == 0
      ensures flavorPrice == 25 && decorationPrice == 0
      ensures previewEmoji == Cake && previewDecoration == Sparkles && previewDescription == "Pastel Personalizado"
      ensures !enviando && mensaje == "" && sent == []
    {
      nombre := "";
      email := "";
      flavorPrice := 25;
      decorationPrice := 0;
      extrasPrice := 0;
      selectedElements := [];
      personalMessage := "";
      fechaEntrega := None;
      nota := "";
      currentStep := 1;
      previewEmoji := Cake;
      previewDecoration := Sparkles;
      previewDescription := "Pastel Personalizado";
      enviando := false;
      mensaje := "";
      sent := [];
    }

    /** The `stepTitle` getter: each of the three titles names exactly its step,
        and every value other than 1 and 2 shows the last one. */
    function StepTitle(): (t: string)
      reads this
      ensures t == Step1Title <==> currentStep == 1
      ensures t == Step2Title <==> currentStep == 2
      ensures t == Step3Title <==> currentStep != 1 && currentStep != 2
    {
      assert Step1Title[5] != Step2Title[5] && Step1Title[5] != Step3Title[5] && Step2Title[5] != Step3Title[5];
      if currentStep == 1 then Step1Title
      else if currentStep == 2 then Step2Title
      else Step3Title
    }

    method NextStep()
      modifies this`currentStep
      ensures currentStep == if old(currentStep) < 3 then old(currentStep) + 1 else old(currentStep)
      ensures old(Valid()) ==> Valid()
    {
      if currentStep < 3 {
        currentStep := currentStep + 1;
      }
    }

    method PrevStep()
      modifies this`currentStep
      ensures currentStep == if old(currentStep) > 1 then old(currentStep) - 1 else old(currentStep)
      ensures old(Valid()) ==> Valid()
    {
      if currentStep > 1 {
        currentStep := currentStep - 1;
      }
    }

    /** `calculateExtras`: the `forEach` accumulation, stored and returned. */
    method CalculateExtras() returns (total: int)
      modifies this`extrasPrice
      ensures total == ExtrasOf(selectedElements) && extrasPrice == total
    {
      total := 0;
      var i := 0;
      while i < |selectedElements|
        invariant 0 <= i <= |selectedElements|
        invariant total == ExtrasOf(selectedElements[..i])
      {
        total := total + PriceOfKey(selectedElements[i]);
        assert selectedElements[..i + 1][..i] == selectedElements[..i];
        i := i + 1;
      }
      assert selectedElements[..|selectedElements|] == selectedElements;
      extrasPrice := total;
    }

    method UpdatePreview()
      modifies this`previewEmoji, this`previewDecoration, this`previewDescription
      ensures previewEmoji == FlavorEmoji(flavorPrice)
      ensures previewDecoration == DecorationEmoji(decorationPrice)
      ensures previewDescription == PreviewDescription(previewEmoji, previewDecoration)
    {
      previewEmoji := FlavorEmoji(flavorPrice);
      previewDecoration := DecorationEmoji(decorationPrice);
      previewDescription := PreviewDescription(previewEmoji, previewDecoration);
    }

    /** A checkbox change: append the key, or drop every copy of it; then
        recompute the extras and the preview. */
    method OnElementChange(checked: bool, key: string)
      modifies this`selectedElements, this`extrasPrice, this`previewEmoji, this`previewDecoration, this`previewDescription
      ensures selectedElements == if checked then old(selectedElements) + [key] else RemoveKey(old(selectedElements), key)
      ensures extrasPrice == ExtrasOf(selectedElements)
      ensures checked ==> extrasPrice == ExtrasOf(old(selectedElements)) + PriceOfKey(key)
      ensures !checked ==>
        key !in selectedElements
        && extrasPrice == ExtrasOf(old(selectedElements)) - CountKey(old(selectedElements), key) * PriceOfKey(key)
      ensures previewEmoji == FlavorEmoji(flavorPrice) && previewDecoration == DecorationEmoji(decorationPrice)
    {
      if checked {
        ExtrasAppend(selectedElements, key);
        selectedElements := selectedElements + [key];
      } else {
        ExtrasRemoveKey(selectedElements, key);
        selectedElements := RemoveKey(selectedElements, key);
      }
      var _ := CalculateExtras();
      UpdatePreview();
    }

    /** `onSubmit`: refuse without a name or address, otherwise send the order. */
    method OnSubmit()
      modifies this`mensaje, this`enviando, this`sent
      ensures nombre == "" || email == "" ==>
        mensaje == IncompleteMessage && enviando == old(enviando) && sent == old(sent)
      ensures nombre != "" && email != "" ==>
        enviando && mensaje == old(mensaje)
        && sent == old(sent) + [PedidoPayload(nombre, email, ProductoDesc(previewDescription, personalMessage), 1,
                                              if fechaEntrega == Some("") then None else fechaEntrega, nota)]
    {
      var payload := PedidoPayload(nombre, email, ProductoDesc(previewDescription, personalMessage), 1,
                                   if fechaEntrega == Some("") then None else fechaEntrega, nota);
      if nombre == "" || email == "" {
        mensaje := IncompleteMessage;
        return;
      }
      enviando := true;
      sent := sent + [payload];
    }

    /** The `next` handler: report the id and clear the contact fields. */
    method OnSubmitSuccess(resId: Option<int>)
      modifies this`mensaje, this`enviando, this`nombre, this`email
      ensures mensaje == SuccessMessage(resId) && StartsWith(mensaje, SuccessPrefix)
      ensures !enviando && nombre == "" && email == ""
    {
      mensaje := SuccessMessage(resId);
      enviando := false;
      nombre := "";
      email := "";
    }

    /** The `error` handler: the form keeps its contents. */
    method OnSubmitError()
      modifies this`mensaje, this`enviando
      ensures mensaje == ErrorMessage && !enviando
    {
      mensaje := ErrorMessage;
      enviando := false;
    }
  }
}
