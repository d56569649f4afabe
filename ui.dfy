/**
 * What the client components show besides their own state: toasts.
 */
module Ui {
  /** `toast({ title, description, variant })`; `destructive` is the error variant. */
  datatype Toast = Toast(title: string, description: string, destructive: bool)

  function ErrorToast(description: string): (t: Toast)
    ensures t.title == "Error" && t.destructive
  {
    Toast("Error", description, true)
  }

  function SuccessToast(description: string): (t: Toast)
    ensures t.title == "Success" && !t.destructive
  {
    Toast("Success", description, false)
  }
}
