/** What the screens show the user besides their own fields. */
module Ui {
  /** A `toast({ title, description, variant })`; `destructive` is the
      `variant: "destructive"` of error toasts. */
  datatype Toast = Toast(title: string, description: string, destructive: bool)
}
