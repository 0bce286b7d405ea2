/**
 * The record shapes shared by the form and the cart (src/types/index.ts).
 * Prices are whole numbers of cents: floating-point arithmetic is not modelled.
 */
module Types {
  import opened Wrappers

  /** `keyof FormValues`, in the key order of the form's initial values. */
  datatype Field = Name | Email | Password

  datatype FormValues = FormValues(name: string, email: string, password: string)

  /** Error per field: absent key, `null` (None) or a message. */
  type FormErrors = map<Field, Option<string>>

  /** The fields whose flag is set; the form only ever stores `true`. */
  type FormTouched = set<Field>

  datatype FormState = FormState(
    values: FormValues,
    errors: FormErrors,
    touched: FormTouched,
    isSubmitting: bool)

  datatype CartItem = CartItem(id: string, name: string, price: int, quantity: int)

  datatype CartState = CartState(items: seq<CartItem>, total: int)

  /** The value stored under `field`. */
  function Get(values: FormValues, field: Field): string
  {
    match field
    case Name => values.name
    case Email => values.email
    case Password => values.password
  }

  /** `{ ...values, [field]: value }` */
  function With(values: FormValues, field: Field, value: string): (r: FormValues)
    ensures Get(r, field) == value
    ensures forall g :: g != field ==> Get(r, g) == Get(values, g)
  {
    match field
    case Name => values.(name := value)
    case Email => values.(email := value)
    case Password => values.(password := value)
  }
}
